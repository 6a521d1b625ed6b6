/**
 A node and the jobs that work on it, over every history in which no cancel of a job of that node
 falls into the moment that the closing commit of a deployment overwrites -- and what becomes of a
 node when one does.
 */
module NodeTheorems {
  import opened Types
  import opened CheckpointGraph
  import opened NodeLifecycle
  import opened MasterAlgebra
  import opened Worker
  import opened WorkerInvariant
  import opened WorkerEffects
  import opened NodeCoupling
  import opened JobRuns
  import opened Fleet
  import opened FleetInvariant
  import opened FleetTheorems
  import Health

  predicate LiveOn(f: State, j: JobId, n: NodeId) {
    j in f.jobs && Live(f.jobs[j].job) && f.jobs[j].job.node == n
  }

  predicate WorksFor(f: State, j: JobId, n: NodeId) { j in f.jobs && f.jobs[j].job.node == n }

  /** Only a live job holds the node in a workflow state. */
  ghost predicate Held(f: State, n: NodeId) {
    n in f.nodes && InWorkflow(f.nodes[n].row.state) ==> exists j :: LiveOn(f, j, n)
  }

  predicate CoupledIn(f: State, j: JobId) { HasView(f, j) && Coupled(ViewOf(f, j)) }

  ghost predicate JobsCoupled(f: State, n: NodeId) { forall j :: WorksFor(f, j, n) ==> CoupledIn(f, j) }

  /** The service is in order, and the node and its jobs agree. */
  ghost predicate Settled(f: State, n: NodeId) { Orderly(f) && JobsCoupled(f, n) && Held(f, n) }

  /** The event is not a cancel of a job of the node in front of the closing commit of its deployment. */
  predicate Punctual(f: State, e: Event, n: NodeId) {
    e.Stop? && HasView(f, e.id) && WorksFor(f, e.id, n) ==> !ClosingDeployment(ViewOf(f, e.id))
  }

  ghost predicate PunctualHistory(f: State, es: seq<Event>, n: NodeId) {
    forall m :: 0 <= m < |es| ==> Possible(History(f, es[..m]), es[m]) && Punctual(History(f, es[..m]), es[m], n)
  }

  // ---- A step of one job ----

  ghost predicate CleanStep(f: State, id: JobId, w: View, n: NodeId) {
    StepOf(f, id, w) && (WorksFor(f, id, n) ==> Coupled(w) && LeavesCleanly(ViewOf(f, id), w))
  }

  lemma BesideCoupled(u: View, v: View, w: View)
    requires Coupled(u)
    requires u.job.node == v.job.node ==> LeavesCleanly(v, w) && u.node == v.node && !(u.job.active && v.job.active)
    ensures Coupled(Beside(u, v, w))
  {
  }

  lemma PutCoupled(f: State, id: JobId, w: View, n: NodeId)
    requires Settled(f, n) && CleanStep(f, id, w, n)
    ensures JobsCoupled(Put(f, w), n)
  {
    hide Orderly, StepOf, Held, LeavesCleanly, Coupled;
    var g := Put(f, w);
    PutSelf(f, id, w);
    OneActive(f);
    forall j | WorksFor(g, j, n) ensures CoupledIn(g, j) {
      PutDomain(f, id, w, j);
      if j == id {
        PutPlace(f, id, w);
      } else {
        OneJob(f, j);
        PutOthers(f, id, w, j);
        NotBothActive(f, id, w, j);
        assert WorksFor(f, j, n) && CoupledIn(f, j);
        BesideCoupled(ViewOf(f, j), ViewOf(f, id), w);
      }
    }
  }

  lemma PutPlace(f: State, id: JobId, w: View)
    requires StepOf(f, id, w)
    ensures w.id == id && HasView(f, id) && w.job.node == f.jobs[id].job.node
  {
    hide RegistryTouched, CloudTouched, MasterTouched;
  }

  lemma PutHeld(f: State, id: JobId, w: View, n: NodeId)
    requires Held(f, n) && CleanStep(f, id, w, n)
    ensures Held(Put(f, w), n)
  {
    hide StepOf, Coupled;
    PutPlace(f, id, w);
    var g, v := Put(f, w), ViewOf(f, id);
    if n in g.nodes && InWorkflow(g.nodes[n].row.state) {
      if n == v.job.node && Live(w.job) {
        assert LiveOn(g, id, n);
      } else {
        assert f.nodes[n].row == g.nodes[n].row;
        var j :| LiveOn(f, j, n);
        assert LiveOn(g, j, n);
      }
    }
  }

  lemma PutSettled(f: State, id: JobId, w: View, n: NodeId)
    requires Settled(f, n) && CleanStep(f, id, w, n)
    ensures Settled(Put(f, w), n)
  {
    hide Orderly, JobsCoupled, Held, StepOf, Coupled, LeavesCleanly;
    PutOrderly(f, id, w);
    PutCoupled(f, id, w, n);
    PutHeld(f, id, w, n);
  }

  lemma JobEventSettled(f: State, e: Event, n: NodeId)
    requires Settled(f, n) && Possible(f, e) && Punctual(f, e, n) && (e.Take? || e.Die? || e.Step? || e.Stop?)
    ensures Settled(After(f, e), n)
  {
    hide Settled, Orderly, Work, Cancel, StepOf, Plausible, Visible, ClosingDeployment, Coupled, LeavesCleanly;
    if HasView(f, e.id) {
      var v := ViewOf(f, e.id);
      SettledIsOrderly(f, n);
      OwnStep(f, e, e.id);
      if WorksFor(f, e.id, n) {
        SettledJob(f, e.id, n);
        match e {
          case Step(_, i) => WorkCoupled(v, EnvOf(f), i);
          case Stop(_) => CancelCoupled(v, f.clock);
          case _ => AcquireCoupled(v);
        }
      }
      PutSettled(f, e.id, OwnEvent(f, e, e.id), n);
    }
  }

  lemma SettledJob(f: State, j: JobId, n: NodeId)
    requires Settled(f, n) && WorksFor(f, j, n)
    ensures Orderly(f) && JobIn(f, j) && CoupledIn(f, j)
  {
    hide Orderly, Held;
    OneJob(f, j);
  }

  lemma SettledIsOrderly(f: State, n: NodeId)
    requires Settled(f, n)
    ensures Orderly(f)
  {
    hide Orderly, JobsCoupled, Held;
  }

  // ---- Admission ----

  lemma AdmittedCoupled(f: State, r: Request, id: JobId, current: ServerId, j: JobId)
    requires j in f.jobs && j != id ==> CoupledIn(f, j)
    requires r.node in f.nodes && Entered(f.nodes[r.node].row, r.force).Success?
    requires !Busy(f, r.node) && j in Admit(f, r, id, current).jobs
    ensures CoupledIn(Admit(f, r, id, current), j)
  {
    if j != id {
      assert f.jobs[j].job.node == r.node ==> !f.jobs[j].job.active;
    }
  }

  lemma AdmittedHeld(f: State, r: Request, id: JobId, current: ServerId, n: NodeId)
    requires Held(f, n) && id !in f.jobs && r.node in f.nodes && Entered(f.nodes[r.node].row, r.force).Success?
    ensures Held(Admit(f, r, id, current), n)
  {
    var g := Admit(f, r, id, current);
    if n in g.nodes && InWorkflow(g.nodes[n].row.state) {
      if n == r.node && !r.dryRun {
        assert LiveOn(g, id, n);
      } else {
        var j :| LiveOn(f, j, n);
        assert LiveOn(g, j, n);
      }
    }
  }

  lemma TriggerSettled(f: State, r: Request, id: JobId, current: ServerId, n: NodeId)
    requires Settled(f, n) && Possible(f, Trigger(r, id, current))
    ensures Settled(After(f, Trigger(r, id, current)), n)
  {
    hide Orderly, Entered, KeyFits, Coupled;
    TriggerOrderly(f, r, id, current);
    if Answer(f, r).Admitted? {
      var g := Admit(f, r, id, current);
      forall j | WorksFor(g, j, n) ensures CoupledIn(g, j) {
        assert j != id ==> WorksFor(f, j, n);
        AdmittedCoupled(f, r, id, current, j);
      }
      AdmittedHeld(f, r, id, current, n);
    }
  }

  // ---- Monitoring, operation modes, the panel, time ----

  /** A node some live job works on is in the state the job's checkpoint fixes. */
  lemma LiveNodeState(f: State, j: JobId, n: NodeId)
    requires Settled(f, n) && LiveOn(f, j, n)
    ensures n in f.nodes && f.nodes[n].row.state == NodeStateAt(f.jobs[j].job.checkpoint)
    ensures f.nodes[n].row.failures == f.jobs[j].job.found.failures
    ensures f.nodes[n].row.successes == f.jobs[j].job.found.successes
    ensures InWorkflow(f.nodes[n].row.state)
  {
    hide Orderly;
    assert WorksFor(f, j, n) && CoupledIn(f, j);
  }

  lemma NobodyWorksOn(f: State, n: NodeId)
    requires Settled(f, n) && n in f.nodes && !InWorkflow(f.nodes[n].row.state)
    ensures forall j :: !LiveOn(f, j, n)
  {
    hide Settled;
    forall j ensures !LiveOn(f, j, n) {
      if LiveOn(f, j, n) {
        LiveNodeState(f, j, n);
      }
    }
  }

  /** A new row for a node: the one looked at only outside the workflow and while no live job works on it. */
  lemma RowChangeSettled(f: State, m: NodeId, row: NodeRow, n: NodeId)
    requires Settled(f, n) && m in f.nodes
    requires m == n ==> !InWorkflow(row.state) && forall j :: !LiveOn(f, j, n)
    ensures Settled(f.(nodes := f.nodes[m := f.nodes[m].(row := row)]), n)
  {
    hide Orderly;
    var g := f.(nodes := f.nodes[m := f.nodes[m].(row := row)]);
    RowChangeOrderly(f, m, row);
    forall j | WorksFor(g, j, n) ensures CoupledIn(g, j) {
      assert WorksFor(f, j, n) && CoupledIn(f, j) && (m == n ==> !LiveOn(f, j, n));
    }
    HeldElsewhere(f, g, n);
  }

  lemma HeldElsewhere(f: State, g: State, n: NodeId)
    requires Held(f, n) && g.jobs == f.jobs
    requires n in g.nodes && InWorkflow(g.nodes[n].row.state) ==> n in f.nodes && InWorkflow(f.nodes[n].row.state)
    ensures Held(g, n)
  {
    if n in g.nodes && InWorkflow(g.nodes[n].row.state) {
      var j :| LiveOn(f, j, n);
      assert LiveOn(g, j, n);
    }
  }

  lemma MonitorSettled(f: State, m: NodeId, d: Decision, n: NodeId)
    requires Settled(f, n)
    ensures Settled(After(f, Monitor(m, d)), n)
  {
    hide Settled;
    if m in f.nodes {
      var row := f.nodes[m].row;
      if m == n && InWorkflow(row.state) {
        assert f.nodes[m := f.nodes[m].(row := row)] == f.nodes;
      } else {
        if m == n {
          NobodyWorksOn(f, n);
        }
        match Health.Applied(f.cfg.health, row, d) {
          case Success(o) => RowChangeSettled(f, m, o.row, n);
          case Failure =>
        }
      }
    }
  }

  lemma SetModeSettled(f: State, m: NodeId, disable: bool, n: NodeId)
    requires Settled(f, n)
    ensures Settled(After(f, SetMode(m, disable)), n)
  {
    hide Settled;
    if m in f.nodes && !Busy(f, m) {
      var r := NodeLifecycle.Moved(f.nodes[m].row, if disable then Disabled else Unknown);
      if r.Success? {
        assert forall j :: !LiveOn(f, j, m);
        RowChangeSettled(f, m, r.value, n);
      }
    }
  }

  lemma AsideSettled(f: State, e: Event, n: NodeId)
    requires Settled(f, n) && (e.EditMaster? || e.Tick?)
    ensures Settled(After(f, e), n)
  {
    hide Settled, After;
    if e.Tick? {
      TickSettled(f, n);
    } else {
      EditSettled(f, e.node, e.record, n);
    }
  }

  lemma TickSettled(f: State, n: NodeId)
    requires Settled(f, n)
    ensures Settled(After(f, Tick), n)
  {
    hide Orderly, Coupled;
    var g := After(f, Tick);
    TickOrderly(f);
    forall j | WorksFor(g, j, n) ensures CoupledIn(g, j) {
      assert WorksFor(f, j, n) && CoupledIn(f, j) && ViewOf(g, j) == ViewOf(f, j);
    }
    HeldElsewhere(f, g, n);
  }

  lemma EditSettled(f: State, m: NodeId, record: MasterNode, n: NodeId)
    requires Settled(f, n)
    ensures Settled(After(f, EditMaster(m, record)), n)
  {
    hide Orderly;
    var g := After(f, EditMaster(m, record));
    EditMasterOrderly(f, m, record);
    forall j | WorksFor(g, j, n) ensures CoupledIn(g, j) {
      assert WorksFor(f, j, n) && CoupledIn(f, j);
    }
    HeldElsewhere(f, g, n);
  }

  /** Nothing that can happen at a good moment disturbs the agreement of the node and its jobs. */
  lemma AfterSettled(f: State, e: Event, n: NodeId)
    requires Settled(f, n) && Possible(f, e) && Punctual(f, e, n)
    ensures Settled(After(f, e), n)
  {
    hide Settled, After, Punctual;
    match e {
      case Trigger(r, id, current) => TriggerSettled(f, r, id, current, n);
      case Monitor(m, d) => MonitorSettled(f, m, d, n);
      case SetMode(m, disable) => SetModeSettled(f, m, disable, n);
      case EditMaster(_, _) => AsideSettled(f, e, n);
      case Tick => AsideSettled(f, e, n);
      case _ => JobEventSettled(f, e, n);
    }
  }

  // ---- Whole histories ----

  /**
   A collection of situations that the service cannot leave while no cancel of a job of the node is
   overwritten.
   */
  ghost predicate ClosedPunctually(s: iset<State>, n: NodeId) {
    && (forall f :: Initial(f) ==> f in s)
    && (forall f, e :: f in s && Possible(f, e) && Punctual(f, e, n) ==> After(f, e) in s)
  }

  /** What can come about while no cancel of a job of the node is overwritten. */
  ghost predicate Undisturbed(f: State, n: NodeId) {
    forall s: iset<State> :: ClosedPunctually(s, n) ==> f in s
  }

  lemma UndisturbedSettled(f: State, n: NodeId)
    requires Undisturbed(f, n)
    ensures Settled(f, n) && Attainable(f)
  {
    hide Settled, Initial, Possible, Punctual, After, Orderly;
    var s := iset g | Settled(g, n);
    forall g | Initial(g) ensures g in s {
      InitialSettled(g, n);
    }
    forall g, e | g in s && Possible(g, e) && Punctual(g, e, n) ensures After(g, e) in s {
      AfterSettled(g, e, n);
    }
    assert ClosedPunctually(s, n);
    forall r: iset<State> | ClosedUnderEvents(r) ensures f in r {
      assert ClosedPunctually(r, n);
    }
  }

  lemma InitialSettled(f: State, n: NodeId)
    requires Initial(f)
    ensures Settled(f, n)
  {
    hide Orderly;
    InitialOrderly(f);
  }

  /**
   A node is in a workflow state exactly while a live job works on it, in the state its checkpoint fixes.
   */
  lemma NodesFollowJobs(f: State, n: NodeId)
    requires Undisturbed(f, n) && n in f.nodes
    ensures InWorkflow(f.nodes[n].row.state) <==> exists j :: LiveOn(f, j, n)
    ensures forall j :: LiveOn(f, j, n) ==> f.nodes[n].row.state == NodeStateAt(f.jobs[j].job.checkpoint)
    ensures forall i, j :: ActiveOn(f, i, n) && ActiveOn(f, j, n) ==> i == j
  {
    hide Orderly, Undisturbed, JobsCoupled;
    UndisturbedSettled(f, n);
    forall j | LiveOn(f, j, n) ensures f.nodes[n].row.state == NodeStateAt(f.jobs[j].job.checkpoint) && InWorkflow(f.nodes[n].row.state) {
      LiveNodeState(f, j, n);
    }
    OneActive(f);
  }

  /** Monitoring and mode changes leave a node alone while a job works on it. */
  lemma WorkflowNodesAreLeftAlone(f: State, j: JobId, n: NodeId, e: Event)
    requires Undisturbed(f, n) && LiveOn(f, j, n) && ((e.Monitor? && e.node == n) || (e.SetMode? && e.node == n))
    ensures After(f, e) == f
  {
    hide Settled, Undisturbed;
    UndisturbedSettled(f, n);
    LiveNodeState(f, j, n);
    assert f.nodes[n := f.nodes[n].(row := f.nodes[n].row)] == f.nodes;
    assert Busy(f, n);
  }

  lemma {:induction false} HistorySettled(f: State, es: seq<Event>, n: NodeId)
    requires Settled(f, n) && PunctualHistory(f, es, n)
    ensures Settled(History(f, es), n) && PossibleHistory(f, es)
  {
    hide Settled, After, Possible, Punctual;
    if es != [] {
      var front := es[..|es| - 1];
      forall m | 0 <= m < |front| ensures Possible(History(f, front[..m]), front[m]) && Punctual(History(f, front[..m]), front[m], n) {
        assert front[..m] == es[..m];
      }
      HistorySettled(f, front, n);
      AfterSettled(History(f, front), es[|es| - 1], n);
    }
  }

  // ---- The round trip of a node ----

  /** The view of a live job that an event ends unsuccessfully. */
  lemma EndedView(f: State, e: Event, j: JobId)
    requires JobIn(f, j) && Possible(f, e) && Own(e, j) && Live(f.jobs[j].job)
    requires var w := OwnEvent(f, e, j); !w.job.active && w.job.checkpoint != Completed
    ensures var v := ViewOf(f, j);
            OwnEvent(f, e, j).node == Ended(v, Failed).node || OwnEvent(f, e, j).node == Ended(v, Cancelled).node
  {
    hide Work, Ended, Plausible, Visible;
    if e.Step? {
      EndsByFailing(ViewOf(f, j), EnvOf(f), e.input);
    }
  }

  lemma UnsuccessfulEnd(f: State, e: Event, j: JobId)
    requires j in f.jobs && Settled(f, f.jobs[j].job.node) && Possible(f, e) && Live(f.jobs[j].job)
    requires j in After(f, e).jobs && !After(f, e).jobs[j].job.active && After(f, e).jobs[j].job.checkpoint != Completed
    ensures var n := f.jobs[j].job.node;
            n in After(f, e).nodes
            && var row := After(f, e).nodes[n].row;
               && row.state == (if f.jobs[j].job.masterUpdated then NodeFailed else f.jobs[j].job.found.state)
               && row.failures == f.jobs[j].job.found.failures && row.successes == f.jobs[j].job.found.successes
  {
    hide Settled, Orderly, After, RegistryTouched, CloudTouched, MasterTouched, OwnEvent, Possible, Ended, Coupled;
    SettledJob(f, j, f.jobs[j].job.node);
    if Own(e, j) {
      var v := ViewOf(f, j);
      EventTouches(f, e, j);
      EndedView(f, e, j);
      UnsuccessfulEndRestoresNode(v, Failed, f.clock);
      UnsuccessfulEndRestoresNode(v, Cancelled, f.clock);
    } else {
      ForeignEvent(f, e, j);
    }
  }

  /**
   A live job that ends FAILED or CANCELLED before the switch is recorded leaves its node in the
   state and with both health counters it had when the job was triggered, standard or forced, with
   monitoring, jobs of other nodes and everything else going on in between. After a recorded switch
   the node is FAILED.
   */
  lemma NodeRoundTrip(f: State, r: Request, j: JobId, current: ServerId, es: seq<Event>, e: Event)
    requires Undisturbed(f, r.node) && Possible(f, Trigger(r, j, current)) && !r.dryRun && Answer(f, r).Admitted?
    requires var g := After(f, Trigger(r, j, current));
             && PunctualHistory(g, es, r.node) && Possible(History(g, es), e)
             && j in History(g, es).jobs && History(g, es).jobs[j].job.active
             && j in After(History(g, es), e).jobs
             && !After(History(g, es), e).jobs[j].job.active && After(History(g, es), e).jobs[j].job.checkpoint != Completed
    ensures var h := History(After(f, Trigger(r, j, current)), es);
            r.node in f.nodes && r.node in After(h, e).nodes
            && var before, row := f.nodes[r.node].row, After(h, e).nodes[r.node].row;
               && row.state == (if h.jobs[j].job.masterUpdated then NodeFailed else before.state)
               && row.failures == before.failures && row.successes == before.successes
  {
    hide Settled, Orderly, Undisturbed, After, PunctualHistory, PossibleHistory, Possible, Answer;
    UndisturbedSettled(f, r.node);
    var g := After(f, Trigger(r, j, current));
    TriggerFinds(f, r, j, current);
    TriggerSettled(f, r, j, current, r.node);
    HistorySettled(g, es, r.node);
    assert Orderly(g) by { SettledIsOrderly(g, r.node); }
    OriginStaysAlong(g, es, j);
    UnsuccessfulEnd(History(g, es), e, j);
  }

  lemma TriggerFinds(f: State, r: Request, j: JobId, current: ServerId)
    requires Possible(f, Trigger(r, j, current)) && Answer(f, r).Admitted?
    ensures var g := After(f, Trigger(r, j, current));
            r.node in f.nodes && j in g.jobs && g.jobs[j].job.node == r.node && g.jobs[j].job.dryRun == r.dryRun
            && g.jobs[j].job.found == Found(f.nodes[r.node].row.state, f.nodes[r.node].row.failures, f.nodes[r.node].row.successes)
  {
  }

  // ---- A node that an overwritten cancel has left in the workflow ----

  /** The node is in a workflow state, no job of it is active and no worker of one is left. */
  predicate Stranded(f: State, n: NodeId) {
    && n in f.nodes && InWorkflow(f.nodes[n].row.state)
    && forall j :: j in f.jobs && f.jobs[j].job.node == n ==> !f.jobs[j].job.active && f.jobs[j].run.pc == Idle
  }

  /** An operator changes the node's mode, or cancels a job of the node once more. */
  predicate Intervenes(f: State, e: Event, n: NodeId) {
    (e.SetMode? && e.node == n) || (e.Stop? && e.id in f.jobs && f.jobs[e.id].job.node == n)
  }

  /** The node is in VERIFYING, job j of it is over, and no other job of it is active or has a worker. */
  predicate Abandoned(f: State, j: JobId, n: NodeId) {
    && HasView(f, j) && f.jobs[j].job.node == n && f.nodes[n].row.state == Verifying && !f.jobs[j].job.active
    && forall i :: i in f.jobs && i != j && f.jobs[i].job.node == n ==> f.jobs[i].run.pc == Idle && !f.jobs[i].job.active
  }

  /** The job's rows after a cancel that the closing commit overwrites. */
  lemma OverwrittenView(v: View, env: Env, c: PanelConfig)
    requires Inv(v, env.clock) && Coupled(v) && Live(v.job) && ClosingDeployment(v)
    ensures Cancel(v) == v.(job := Cancel(v).job, node := Cancel(v).node) && Cancel(v).job.node == v.job.node
    ensures forall other: Env ::
              var w := Work(Cancel(v), other, Installed(c));
              && w.id == v.id && w.job.node == v.job.node && !w.job.active && w.node.state == Verifying
              && Plausible(Cancel(v), other, Installed(c)) && Visible(Cancel(v), other, Installed(c))
  {
    hide Work, Cancel, Stray, Coupled, Plausible, Visible;
    LateCancelIsOverwritten(v, env, c);
    CancelIs(v, env.clock) by { ClosingIsEarly(v, env.clock); }
    ClosingShape(Cancel(v), env, c);
    forall other: Env
      ensures Work(Cancel(v), other, Installed(c)) == Work(Cancel(v), env, Installed(c))
      ensures Plausible(Cancel(v), other, Installed(c)) && Visible(Cancel(v), other, Installed(c))
    {
      ClosingIgnoresEnv(Cancel(v), env, other, c);
    }
  }

  /** Two events of the same job are two writes of its view. */
  lemma CancelThenStep(f: State, j: JobId, i: Input)
    requires HasView(f, j)
    requires var x := Cancel(ViewOf(f, j)); x.id == j && x.job.node == f.jobs[j].job.node
    ensures var x, f1 := Cancel(ViewOf(f, j)), After(f, Stop(j));
            && f1 == Put(f, x) && HasView(f1, j) && ViewOf(f1, j) == x
            && After(f1, Step(j, i)) == Put(f1, Work(x, EnvOf(f1), i))
  {
    hide Work, Cancel;
  }

  lemma PutAbandons(f: State, j: JobId, x: View, w: View, n: NodeId)
    requires HasView(f, j) && f.jobs[j].job.node == n && x.id == j && x.job.node == n
    requires w.id == j && w.job.node == n && !w.job.active && w.node.state == Verifying
    requires forall i :: i in f.jobs && i != j && f.jobs[i].job.node == n ==> f.jobs[i].run.pc == Idle && !f.jobs[i].job.active
    ensures Abandoned(Put(Put(f, x), w), j, n)
  {
  }

  lemma CancelIsOverwritten(f: State, j: JobId, c: PanelConfig)
    requires j in f.jobs && Settled(f, f.jobs[j].job.node) && Live(f.jobs[j].job) && HasView(f, j) && ClosingDeployment(ViewOf(f, j))
    requires forall i :: i in f.jobs && i != j && f.jobs[i].job.node == f.jobs[j].job.node ==> f.jobs[i].run.pc == Idle
    ensures var g := After(After(f, Stop(j)), Step(j, Installed(c)));
            Orderly(g) && Abandoned(g, j, f.jobs[j].job.node)
  {
    hide Settled, Orderly, Work, Cancel, Coupled, ClosingDeployment, After, Plausible, Visible, Abandoned;
    SettledJob(f, j, f.jobs[j].job.node);
    OthersAreInactive(f, j);
    var v, f1 := ViewOf(f, j), After(f, Stop(j));
    OverwrittenView(v, EnvOf(f), c);
    CancelThenStep(f, j, Installed(c));
    AfterOrderly(f, Stop(j));
    AfterOrderly(f1, Step(j, Installed(c)));
    PutAbandons(f, j, Cancel(v), Work(Cancel(v), EnvOf(f1), Installed(c)), f.jobs[j].job.node);
  }

  /** A cancel in front of the closing commit, the commit, and the death of the worker do that. */
  lemma OverwrittenCancelStrands(f: State, j: JobId, c: PanelConfig)
    requires j in f.jobs && Settled(f, f.jobs[j].job.node) && Live(f.jobs[j].job) && HasView(f, j) && ClosingDeployment(ViewOf(f, j))
    requires forall i :: i in f.jobs && i != j && f.jobs[i].job.node == f.jobs[j].job.node ==> f.jobs[i].run.pc == Idle
    ensures var n := f.jobs[j].job.node;
            var g := After(After(After(f, Stop(j)), Step(j, Installed(c))), Die(j));
            Orderly(g) && Stranded(g, n) && n in g.nodes && g.nodes[n].row.state == Verifying
  {
    hide Settled, Orderly, After, Stranded, ClosingDeployment, ViewOf;
    CancelIsOverwritten(f, j, c);
    var g := After(After(f, Stop(j)), Step(j, Installed(c)));
    AfterOrderly(g, Die(j));
    DeathStrands(g, j, f.jobs[j].job.node);
  }

  /** The last worker on such a node dies. */
  lemma DeathStrands(f: State, j: JobId, n: NodeId)
    requires Abandoned(f, j, n)
    ensures Stranded(After(f, Die(j)), n) && n in After(f, Die(j)).nodes && After(f, Die(j)).nodes[n].row == f.nodes[n].row
  {
  }

  lemma OthersAreInactive(f: State, j: JobId)
    requires Orderly(f) && j in f.jobs && f.jobs[j].job.active
    ensures forall i :: i in f.jobs && i != j && f.jobs[i].job.node == f.jobs[j].job.node ==> !f.jobs[i].job.active
  {
    OneActive(f);
    hide Orderly;
    forall i | i in f.jobs && i != j && f.jobs[i].job.node == f.jobs[j].job.node ensures !f.jobs[i].job.active {
      assert ActiveOn(f, j, f.jobs[j].job.node);
      assert f.jobs[i].job.active ==> ActiveOn(f, i, f.jobs[j].job.node);
    }
  }

  lemma ClosingIsEarly(v: View, clock: nat)
    requires Inv(v, clock) && ClosingDeployment(v) && v.job.active
    ensures !v.job.masterUpdated
  {
    WorkerInvariant.Opened(v, clock);
    JobFacts(v, clock);
  }

  lemma ClosingIgnoresEnv(v: View, env: Env, other: Env, c: PanelConfig)
    requires ClosingDeployment(v)
    ensures Work(v, env, Installed(c)) == Work(v, other, Installed(c))
    ensures Plausible(v, other, Installed(c)) && Visible(v, other, Installed(c))
  {
  }

  lemma ClosingShape(v: View, env: Env, c: PanelConfig)
    requires ClosingDeployment(v)
    ensures var w := Work(v, env, Installed(c));
            w == v.(job := w.job, run := w.run, deployment := w.deployment, node := w.node)
            && w.job.node == v.job.node && w.job.active == v.job.active
  {
  }

  lemma StrandedOwn(f: State, e: Event, id: JobId)
    requires HasView(f, id) && Own(e, id) && !e.Stop? && !f.jobs[id].job.active && f.jobs[id].run.pc == Idle
    ensures OwnEvent(f, e, id) == ViewOf(f, id)
  {
  }

  lemma StrandedStep(f: State, e: Event, n: NodeId)
    requires Orderly(f) && Possible(f, e) && Stranded(f, n) && !Intervenes(f, e, n)
    requires (e.Take? || e.Die? || e.Step? || e.Stop?) && HasView(f, e.id)
    ensures Stranded(After(f, e), n) && After(f, e).nodes[n].row == f.nodes[n].row
  {
    hide Orderly, Touches, Possible, OwnEvent, After, Stranded;
    OneJob(f, e.id);
    EventTouches(f, e, e.id);
    OwnPlace(ViewOf(f, e.id), OwnEvent(f, e, e.id));
    if f.jobs[e.id].job.node == n {
      StrandedSlot(f, e, n);
    } else {
      StrandedElsewhere(f, OwnEvent(f, e, e.id), n);
    }
  }

  lemma OwnPlace(v: View, w: View)
    requires Touches(v, w)
    ensures w.id == v.id && w.job.node == v.job.node && (w.job.active ==> v.job.active)
  {
    hide RegistryTouched, CloudTouched, MasterTouched;
  }

  lemma StrandedSlot(f: State, e: Event, n: NodeId)
    requires Stranded(f, n) && !Intervenes(f, e, n) && (e.Take? || e.Die? || e.Step? || e.Stop?)
    requires HasView(f, e.id) && f.jobs[e.id].job.node == n && After(f, e) == Put(f, OwnEvent(f, e, e.id))
    ensures Stranded(After(f, e), n) && After(f, e).nodes[n].row == f.nodes[n].row
  {
    hide After, OwnEvent;
    StrandedOwn(f, e, e.id);
  }

  lemma StrandedElsewhere(f: State, w: View, n: NodeId)
    requires Stranded(f, n) && w.id in f.jobs && w.job.node == f.jobs[w.id].job.node && w.job.node != n
    ensures Stranded(Put(f, w), n) && Put(f, w).nodes[n].row == f.nodes[n].row
  {
  }

  lemma StrandedRefuses(f: State, e: Event, n: NodeId)
    requires Stranded(f, n) && !Intervenes(f, e, n) && !(e.Take? || e.Die? || e.Step? || e.Stop?)
    ensures Stranded(After(f, e), n) && After(f, e).nodes[n].row == f.nodes[n].row
  {
  }

  /**
   After the worker of such a job has died nothing gives the node back -- no worker, no trigger, no
   monitoring and no time -- but an operator who changes its mode or cancels the job again.
   */
  lemma {:induction false} StrandedStays(f: State, es: seq<Event>, n: NodeId)
    requires Orderly(f) && PossibleHistory(f, es) && Stranded(f, n)
    requires forall m :: 0 <= m < |es| ==> !Intervenes(History(f, es[..m]), es[m], n)
    ensures Orderly(History(f, es)) && Stranded(History(f, es), n) && History(f, es).nodes[n].row == f.nodes[n].row
  {
    hide Orderly, After, Possible, Stranded, Intervenes;
    if es != [] {
      var front, e := es[..|es| - 1], es[|es| - 1];
      forall m | 0 <= m < |front|
        ensures Possible(History(f, front[..m]), front[m]) && !Intervenes(History(f, front[..m]), front[m], n)
      {
        assert front[..m] == es[..m];
      }
      StrandedStays(f, front, n);
      var g := History(f, front);
      AfterOrderly(g, e);
      StrandedAfter(g, e, n);
    }
  }

  lemma StrandedAfter(f: State, e: Event, n: NodeId)
    requires Orderly(f) && Possible(f, e) && Stranded(f, n) && !Intervenes(f, e, n)
    ensures Stranded(After(f, e), n) && After(f, e).nodes[n].row == f.nodes[n].row
  {
    hide Orderly, After, Possible, Stranded, Intervenes;
    if e.Take? || e.Die? || e.Step? || e.Stop? {
      if HasView(f, e.id) {
        StrandedStep(f, e, n);
      } else {
        NothingHappens(f, e);
      }
    } else {
      StrandedRefuses(f, e, n);
    }
  }

  lemma NothingHappens(f: State, e: Event)
    requires (e.Take? || e.Die? || e.Step? || e.Stop?) && !HasView(f, e.id)
    ensures After(f, e) == f
  {
  }
}
