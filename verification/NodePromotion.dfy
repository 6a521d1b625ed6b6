/**
 Whatever cancels come, at any moment: the node of a live job never stands in the way of the job's
 final commit.
 */
module NodePromotion {
  import opened Types
  import opened CheckpointGraph
  import opened NodeLifecycle
  import opened MasterAlgebra
  import opened Worker
  import opened WorkerInvariant
  import opened WorkerEffects
  import opened NodeCoupling
  import opened Fleet
  import opened FleetInvariant
  import opened FleetTheorems
  import Health

  predicate OpenIn(f: State, j: JobId) { HasView(f, j) && Unobstructed(ViewOf(f, j)) }

  /** No live job finds its node in a state it has passed. */
  ghost predicate WaysOpen(f: State) { forall j :: j in f.jobs ==> OpenIn(f, j) }

  // ---- A step of one job ----

  /** The step keeps its own job's way open and, when the job is over, at most gives the node back. */
  ghost predicate OpenStep(f: State, id: JobId, w: View) {
    && StepOf(f, id, w) && Unobstructed(w)
    && (ViewOf(f, id).job.active || Yields(ViewOf(f, id).node.state, w.node.state))
  }

  lemma BesideUnobstructed(u: View, v: View, w: View)
    requires Unobstructed(u) && (v.job.active || Yields(v.node.state, w.node.state))
    requires u.job.node == v.job.node ==> u.node == v.node && !(u.job.active && v.job.active)
    ensures Unobstructed(Beside(u, v, w))
  {
  }

  lemma PutOpen(f: State, id: JobId, w: View)
    requires Orderly(f) && WaysOpen(f) && OpenStep(f, id, w)
    ensures WaysOpen(Put(f, w))
  {
    hide Orderly, StepOf, Unobstructed, Yields;
    var g := Put(f, w);
    PutSelf(f, id, w);
    OneActive(f);
    forall j | j in g.jobs ensures OpenIn(g, j) {
      PutDomain(f, id, w, j);
      if j != id {
        OneJob(f, j);
        PutOthers(f, id, w, j);
        NotBothActive(f, id, w, j);
        assert OpenIn(f, j);
        BesideUnobstructed(ViewOf(f, j), ViewOf(f, id), w);
      }
    }
  }

  lemma OwnUnobstructed(v: View, env: Env, i: Input)
    requires Inv(v, env.clock) && Unobstructed(v) && Plausible(v, env, i) && Visible(v, env, i)
    ensures Unobstructed(Work(v, env, i))
    ensures v.job.active || Yields(v.node.state, Work(v, env, i).node.state)
  {
    hide Work, Plausible, Visible, Yields;
    if v.job.active {
      WorkUnobstructed(v, env, i);
    } else {
      EndedYields(v, env, i);
      StaysEnded(v, env, i);
    }
  }

  lemma StaysEnded(v: View, env: Env, i: Input)
    requires Inv(v, env.clock) && !v.job.active && Plausible(v, env, i)
    ensures !Work(v, env, i).job.active
  {
    hide Work, Plausible, MasterTouched, RegistryTouched, CloudTouched;
    WorkTouches(v, env, i);
  }

  lemma JobEventOpen(f: State, e: Event)
    requires Orderly(f) && WaysOpen(f) && Possible(f, e) && (e.Take? || e.Die? || e.Step? || e.Stop?)
    ensures WaysOpen(After(f, e))
  {
    hide Orderly, Work, Cancel, StepOf, Plausible, Visible, Unobstructed, Yields;
    if HasView(f, e.id) {
      var v := ViewOf(f, e.id);
      OneJob(f, e.id);
      assert OpenIn(f, e.id);
      OwnStep(f, e, e.id);
      match e {
        case Step(_, i) => OwnUnobstructed(v, EnvOf(f), i);
        case Stop(_) => CancelUnobstructed(v, f.clock);
        case _ => AcquireUnobstructed(v); SameYields(v);
      }
      PutOpen(f, e.id, OwnEvent(f, e, e.id));
    }
  }

  // ---- Everything else ----

  lemma AdmittedOpen(f: State, r: Request, id: JobId, current: ServerId, j: JobId)
    requires WaysOpen(f) && r.node in f.nodes && Entered(f.nodes[r.node].row, r.force).Success?
    requires !Busy(f, r.node) && j in Admit(f, r, id, current).jobs
    ensures OpenIn(Admit(f, r, id, current), j)
  {
    if j != id {
      assert OpenIn(f, j);
      assert f.jobs[j].job.node == r.node ==> !f.jobs[j].job.active;
    }
  }

  lemma TriggerOpen(f: State, r: Request, id: JobId, current: ServerId)
    requires WaysOpen(f)
    ensures WaysOpen(After(f, Trigger(r, id, current)))
  {
    hide Entered, KeyFits, Unobstructed;
    if Answer(f, r).Admitted? {
      forall j | j in Admit(f, r, id, current).jobs ensures OpenIn(Admit(f, r, id, current), j) {
        AdmittedOpen(f, r, id, current, j);
      }
    }
  }

  /** A new row for a node, which at most yields where a live job works. */
  lemma RowChangeOpen(f: State, n: NodeId, row: NodeRow)
    requires WaysOpen(f) && n in f.nodes && (Busy(f, n) ==> Yields(f.nodes[n].row.state, row.state))
    ensures WaysOpen(f.(nodes := f.nodes[n := f.nodes[n].(row := row)]))
  {
    var g := f.(nodes := f.nodes[n := f.nodes[n].(row := row)]);
    forall j | j in g.jobs ensures OpenIn(g, j) {
      assert OpenIn(f, j);
    }
  }

  lemma MonitoringYields(f: State, n: NodeId, d: Decision)
    requires n in f.nodes && Health.Applied(f.cfg.health, f.nodes[n].row, d).Success?
    ensures Yields(f.nodes[n].row.state, Health.Applied(f.cfg.health, f.nodes[n].row, d).value.row.state)
  {
  }

  lemma NodeEventOpen(f: State, e: Event)
    requires WaysOpen(f) && (e.Monitor? || e.SetMode?)
    ensures WaysOpen(After(f, e))
  {
    hide WaysOpen, Yields, Health.Applied, NodeLifecycle.Moved, Busy;
    if e.node in f.nodes {
      match e {
        case Monitor(n, d) =>
          match Health.Applied(f.cfg.health, f.nodes[n].row, d) {
            case Success(o) => MonitoringYields(f, n, d); RowChangeOpen(f, n, o.row);
            case Failure =>
          }
        case SetMode(n, disable) =>
          if !Busy(f, n) {
            match NodeLifecycle.Moved(f.nodes[n].row, if disable then Disabled else Unknown) {
              case Success(m) => RowChangeOpen(f, n, m);
              case Failure =>
            }
          }
      }
    }
  }

  lemma AsideOpen(f: State, e: Event)
    requires WaysOpen(f) && (e.EditMaster? || e.Tick?)
    ensures WaysOpen(After(f, e))
  {
    forall j | j in After(f, e).jobs ensures OpenIn(After(f, e), j) {
      assert OpenIn(f, j);
    }
  }

  /** Nothing that can happen closes the way of a live job. */
  lemma AfterOpen(f: State, e: Event)
    requires Orderly(f) && WaysOpen(f) && Possible(f, e)
    ensures WaysOpen(After(f, e))
  {
    hide Orderly, WaysOpen, After;
    match e {
      case Trigger(r, id, current) => TriggerOpen(f, r, id, current);
      case Monitor(_, _) => NodeEventOpen(f, e);
      case SetMode(_, _) => NodeEventOpen(f, e);
      case EditMaster(_, _) => AsideOpen(f, e);
      case Tick => AsideOpen(f, e);
      case _ => JobEventOpen(f, e);
    }
  }

  lemma AttainableOpen(f: State)
    requires Attainable(f)
    ensures Orderly(f) && WaysOpen(f)
  {
    hide Orderly, WaysOpen, Possible, After;
    var s := iset g | Orderly(g) && WaysOpen(g);
    forall g | Initial(g) ensures g in s {
      InitialOrderly(g);
      InitialOpen(g);
    }
    forall g, e | g in s && Possible(g, e) ensures After(g, e) in s {
      AfterOrderly(g, e);
      AfterOpen(g, e);
    }
    assert ClosedUnderEvents(s);
  }

  lemma InitialOpen(f: State)
    requires Initial(f)
    ensures WaysOpen(f)
  {
  }

  /**
   In every history, with cancels at any moment: a live job at its last checkpoint finds its node in a
   state from which it may become HEALTHY, and everything else its final commit reads is in place.
   */
  lemma FinalCommitIsPossible(f: State, j: JobId)
    requires Attainable(f) && j in f.jobs && Live(f.jobs[j].job) && f.jobs[j].job.checkpoint == OldVpsCleanup
    ensures HasView(f, j) && HasPanel(ViewOf(f, j)) && f.jobs[j].job.oldVps in f.vps
    ensures CanTransition(ViewOf(f, j).node.state, Healthy)
  {
    hide Orderly, Attainable, Unobstructed, CanTransition;
    AttainableOpen(f);
    OneJob(f, j);
    assert OpenIn(f, j);
    FinalCommitIsOpen(ViewOf(f, j));
    WorkerInvariant.Opened(ViewOf(f, j), f.clock);
    ReplacedRows(ViewOf(f, j), f.clock);
  }
}
