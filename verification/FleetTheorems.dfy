/** What holds of every history of the service. */
module FleetTheorems {
  import opened Types
  import opened CheckpointGraph
  import opened NodeLifecycle
  import opened MasterAlgebra
  import opened Worker
  import opened WorkerInvariant
  import opened WorkerEffects
  import opened JobGuarantees
  import opened Decisions
  import opened JobRuns
  import opened Fleet
  import opened FleetInvariant

  /** A collection of situations that the service cannot leave. */
  ghost predicate ClosedUnderEvents(s: iset<State>) {
    && (forall f :: Initial(f) ==> f in s)
    && (forall f, e :: f in s && Possible(f, e) ==> After(f, e) in s)
  }

  /** What can come about: the least collection the service cannot leave. */
  ghost predicate Attainable(f: State) {
    forall s: iset<State> :: ClosedUnderEvents(s) ==> f in s
  }

  ghost predicate Ends(f0: State, es: seq<Event>, f: State) {
    Initial(f0) && PossibleHistory(f0, es) && f == History(f0, es)
  }

  ghost predicate HasHistory(f: State) { exists f0, es :: Ends(f0, es, f) }

  /** The attainable situations are the ends of the possible histories. */
  lemma AttainableByHistory(f: State)
    ensures Attainable(f) <==> HasHistory(f)
  {
    hide Initial, Possible, After;
    if Attainable(f) {
      var s := iset g | HasHistory(g);
      forall g | Initial(g) ensures g in s {
        assert Ends(g, [], g);
      }
      forall g, e | g in s && Possible(g, e) ensures After(g, e) in s {
        var f0, es :| Ends(f0, es, g);
        Lengthened(f0, es, e);
        assert Ends(f0, es + [e], After(g, e));
      }
      assert ClosedUnderEvents(s);
    }
    if f0, es :| Ends(f0, es, f) {
      forall s: iset<State> | ClosedUnderEvents(s) ensures f in s {
        StaysIn(s, f0, es);
      }
    }
  }

  lemma Lengthened(f0: State, es: seq<Event>, e: Event)
    requires PossibleHistory(f0, es) && Possible(History(f0, es), e)
    ensures PossibleHistory(f0, es + [e]) && History(f0, es + [e]) == After(History(f0, es), e)
  {
    hide Possible, After;
    var longer := es + [e];
    assert longer[..|es|] == es;
    forall n | 0 <= n < |longer| ensures Possible(History(f0, longer[..n]), longer[n]) {
      if n < |es| {
        assert longer[..n] == es[..n];
      }
    }
  }

  lemma {:induction false} StaysIn(s: iset<State>, f0: State, es: seq<Event>)
    requires ClosedUnderEvents(s) && f0 in s && PossibleHistory(f0, es)
    ensures History(f0, es) in s
  {
    hide Initial, Possible, After;
    if es != [] {
      var front := es[..|es| - 1];
      forall n | 0 <= n < |front| ensures Possible(History(f0, front[..n]), front[n]) {
        assert front[..n] == es[..n];
      }
      StaysIn(s, f0, front);
      assert front == es[..|es| - 1];
    }
  }

  /** A possible history leads from attainable to attainable situations. */
  lemma AttainableAlong(f: State, es: seq<Event>)
    requires Attainable(f) && PossibleHistory(f, es)
    ensures Attainable(History(f, es))
  {
    hide Initial, Possible, After;
    forall s: iset<State> | ClosedUnderEvents(s) ensures History(f, es) in s {
      StaysIn(s, f, es);
    }
  }

  lemma AttainableOrderly(f: State)
    requires Attainable(f)
    ensures Orderly(f)
  {
    hide Orderly, Initial, Possible, After;
    var s := iset g | Orderly(g);
    forall g | Initial(g) ensures g in s {
      InitialOrderly(g);
    }
    forall g, e | g in s && Possible(g, e) ensures After(g, e) in s {
      AfterOrderly(g, e);
    }
    assert ClosedUnderEvents(s);
  }

  lemma AttainableView(f: State, j: JobId)
    requires Attainable(f) && j in f.jobs
    ensures HasView(f, j) && Inv(ViewOf(f, j), f.clock)
  {
    hide Orderly, Attainable;
    AttainableOrderly(f);
    OneJob(f, j);
  }

  // ---- Deletions ----

  /**
   Whatever jobs, workers, crashes and cancels a history has seen: when a server dies, a worker is
   deleting its own job's candidate under the candidate's deterministic name, or a live job at its
   last checkpoint with all five markers set for an unchanged candidate is deleting its own old
   server, which the operator has enabled. A node's current server dies only in the second way.
   */
  lemma ServersDieSafely(f: State, e: Event, k: ServerId)
    requires Attainable(f) && Possible(f, e)
    requires k in f.servers && f.servers[k].alive && k in After(f, e).servers && !After(f, e).servers[k].alive
    ensures e.Step? && HasView(f, e.id)
    ensures RetiresOld(ViewOf(f, e.id), k) || ReapsCandidate(ViewOf(f, e.id), k)
    ensures RetiresOld(ViewOf(f, e.id), k) ==> f.cfg.allowOldDeletion
    ensures k in f.vps && f.vps[k].role == Current ==> RetiresOld(ViewOf(f, e.id), k)
  {
    hide RetiresOld, ReapsCandidate, Attainable, Plausible, Visible, Work;
    OnlyStepsKill(f, e, k);
    var v := ViewOf(f, e.id);
    AttainableView(f, e.id);
    DeletionsAreSafe(v, EnvOf(f), e.input, k);
    AttainableSanctioned(f);
    RetiringIsSanctioned(f, e.id, k);
  }

  lemma RetiringIsSanctioned(f: State, j: JobId, k: ServerId)
    requires Sanctioned(f) && HasView(f, j)
    ensures RetiresOld(ViewOf(f, j), k) ==> f.cfg.allowOldDeletion
  {
  }

  /** A worker is on its way to delete an old server only if the operator has enabled it. */
  ghost predicate Sanctioned(f: State) {
    forall j :: j in f.jobs && Retiring(f.jobs[j].run.pc) ==> f.cfg.allowOldDeletion
  }

  lemma OwnEventSanctioned(f: State, e: Event)
    requires Orderly(f) && Sanctioned(f) && Possible(f, e) && (e.Take? || e.Die? || e.Step? || e.Stop?)
    ensures Sanctioned(After(f, e))
  {
    hide Orderly, After, Work, OwnEvent, Possible, RegistryTouched, CloudTouched, MasterTouched;
    if HasView(f, e.id) {
      OneJob(f, e.id);
      EventTouches(f, e, e.id);
      RetiringIsEntered(f, e, e.id);
    } else {
      NobodyMoves(f, e);
    }
  }

  lemma RetiringIsEntered(f: State, e: Event, j: JobId)
    requires HasView(f, j) && Own(e, j) && JobIn(f, j)
    ensures Retiring(OwnEvent(f, e, j).run.pc) && !Retiring(f.jobs[j].run.pc) ==> f.cfg.allowOldDeletion
  {
    hide Work;
    if e.Step? {
      if Retiring(OwnEvent(f, e, j).run.pc) && !Retiring(f.jobs[j].run.pc) {
        RetiringNeedsPermission(ViewOf(f, j), EnvOf(f), e.input);
      }
    } else if e.Stop? {
      CancelKeepsRun(ViewOf(f, j));
    }
  }

  lemma CancelKeepsRun(v: View)
    ensures Cancel(v).run == v.run
  {
    hide NodeAfterFailure;
  }

  lemma NobodyMoves(f: State, e: Event)
    requires (e.Take? || e.Die? || e.Step? || e.Stop?) && !HasView(f, e.id)
    ensures After(f, e) == f
  {
  }

  lemma AsideSanctioned(f: State, e: Event)
    requires Sanctioned(f) && !(e.Take? || e.Die? || e.Step? || e.Stop?)
    ensures Sanctioned(After(f, e))
  {
    hide Answer;
  }

  lemma AttainableSanctioned(f: State)
    requires Attainable(f)
    ensures Sanctioned(f)
  {
    hide Orderly, Sanctioned, Possible, After;
    var s := iset g | Orderly(g) && Sanctioned(g);
    forall g | Initial(g) ensures g in s {
      InitialOrderly(g);
      NobodyRetires(g);
    }
    forall g, e | g in s && Possible(g, e) ensures After(g, e) in s {
      AfterOrderly(g, e);
      if e.Take? || e.Die? || e.Step? || e.Stop? {
        OwnEventSanctioned(g, e);
      } else {
        AsideSanctioned(g, e);
      }
    }
    assert ClosedUnderEvents(s);
  }

  lemma NobodyRetires(f: State)
    requires f.jobs == map[]
    ensures Sanctioned(f)
  {
  }

  /**
   While deletion is disabled every server that is not some job's own candidate lives on, whatever happens.
   */
  lemma DisabledDeletionSpares(f: State, e: Event, k: ServerId)
    requires Attainable(f) && Possible(f, e) && !f.cfg.allowOldDeletion
    requires k in f.servers && f.servers[k].alive && k in After(f, e).servers
    requires (f.servers[k].name.CandidateName? ==> k in f.vps && f.vps[k].role == Current)
    ensures After(f, e).servers[k].alive && After(f, e).cfg == f.cfg
  {
    hide Attainable, Possible, After, RetiresOld;
    SettingsStay(f, e);
    if !After(f, e).servers[k].alive {
      ServersDieSafely(f, e, k);
    }
  }

  lemma SettingsStay(f: State, e: Event)
    ensures After(f, e).cfg == f.cfg
  {
    hide Work, Cancel, Acquire, Answer;
  }

  /**
   And a live job that has come to its cleanup stays there, its old server alive, until it fails or deletion
   is enabled.
   */
  lemma DisabledDeletionWaits(f: State, j: JobId, i: Input)
    requires Attainable(f) && Possible(f, Step(j, i)) && HasView(f, j) && !f.cfg.allowOldDeletion
    requires Live(f.jobs[j].job) && f.jobs[j].job.checkpoint == OldVpsCleanup
    ensures var v, w := ViewOf(f, j), Work(ViewOf(f, j), EnvOf(f), i);
            && w.servers == v.servers && w.vps == v.vps
            && (if v.run.pc == Failing then w.job.checkpoint == Failed && !w.job.active else w.job == v.job)
            && (v.run.pc == Enter(OldVpsCleanup) && i == Ok ==> w == Leave(v))
  {
    hide Attainable, Work, Possible;
    AttainableView(f, j);
    AttainableSanctioned(f);
    WaitsAtTheDoor(ViewOf(f, j), EnvOf(f), i);
  }

  lemma WaitsAtTheDoor(v: View, env: Env, i: Input)
    requires Inv(v, env.clock) && Live(v.job) && v.job.checkpoint == OldVpsCleanup && !Retiring(v.run.pc) && !env.cfg.allowOldDeletion
    ensures var w := Work(v, env, i);
            && w.servers == v.servers && w.vps == v.vps
            && (if v.run.pc == Failing then w.job.checkpoint == Failed && !w.job.active else w.job == v.job)
            && (v.run.pc == Enter(OldVpsCleanup) && i == Ok ==> w == Leave(v))
  {
    hide Work, Ended, AtOldVpsCleanup;
    WorkerInvariant.Opened(v, env.clock);
    if v.run.pc == Failing {
      WorkAtPlace(v, env, i);
      JobFacts(v, env.clock);
      EndingIsNeverRefused(v, Failed, env.clock);
    } else if v.run.pc == Enter(OldVpsCleanup) {
      WorkAtStage(v, env, i);
      QuietWork(v, env, i);
      CleanupMovesNothing(v, env, i);
      if i == Ok {
        DisabledDeletionDefers(v, env);
      }
    } else {
      QuietWork(v, env, i);
      LoopKeepsJob(v, env, i);
    }
  }

  lemma CleanupMovesNothing(v: View, env: Env, i: Input)
    ensures AtOldVpsCleanup(v, env, i).job == v.job
  {
    hide GuardPermits;
  }

  lemma LoopKeepsJob(v: View, env: Env, i: Input)
    requires v.run.pc == Idle || v.run.pc == LoopTop
    ensures Work(v, env, i).job == v.job
  {
  }

  lemma OnlyStepsKill(f: State, e: Event, k: ServerId)
    requires k in f.servers && f.servers[k].alive && k in After(f, e).servers && !After(f, e).servers[k].alive
    ensures e.Step? && HasView(f, e.id)
    ensures After(f, e).servers == Work(ViewOf(f, e.id), EnvOf(f), e.input).servers
  {
    hide Work, Answer, Allowed;
  }

  // ---- Creations ----

  function ServersOf(f: State, j: JobId, upTo: nat): set<ServerId> {
    set k | k in f.servers && f.servers[k].name.CandidateName? && f.servers[k].name.job == j
            && f.servers[k].name.attempt <= upTo
  }

  /** Each attempt of a live job ever creates at most one server. */
  lemma NoDuplicateServers(f: State, j: JobId, k: ServerId, m: ServerId)
    requires Attainable(f) && j in f.jobs && !f.jobs[j].job.dryRun
    requires k in f.servers && m in f.servers && f.servers[k].name == f.servers[m].name
    requires f.servers[k].name.CandidateName? && f.servers[k].name.job == j
    ensures k == m
  {
    hide Attainable;
    AttainableView(f, j);
    var v := ViewOf(f, j);
    WorkerInvariant.Opened(v, f.clock);
    NamesFacts(v, f.clock);
    assert NamedFor(j, f.servers[k].name.attempt, k, v.servers) && NamedFor(j, f.servers[k].name.attempt, m, v.servers);
  }

  lemma {:induction false} ServersUpTo(f: State, j: JobId, upTo: nat)
    requires Attainable(f) && j in f.jobs && !f.jobs[j].job.dryRun
    ensures |ServersOf(f, j, upTo)| <= upTo
  {
    hide Attainable;
    if upTo == 0 {
      NamesAreInRange(f, j);
      assert ServersOf(f, j, 0) == {};
    } else {
      ServersUpTo(f, j, upTo - 1);
      var latest := ServersOf(f, j, upTo) - ServersOf(f, j, upTo - 1);
      if latest != {} {
        var k :| k in latest;
        forall m | m in latest ensures m == k {
          NoDuplicateServers(f, j, k, m);
        }
        assert latest == {k};
      }
      assert ServersOf(f, j, upTo) == ServersOf(f, j, upTo - 1) + latest;
    }
  }

  lemma NamesAreInRange(f: State, j: JobId)
    requires Attainable(f) && j in f.jobs
    ensures f.jobs[j].job.attempt <= f.jobs[j].job.maxAttempts
    ensures forall k :: k in f.servers && f.servers[k].name.CandidateName? && f.servers[k].name.job == j ==>
              1 <= f.servers[k].name.attempt <= f.jobs[j].job.attempt
  {
    hide Attainable;
    AttainableView(f, j);
    var v := ViewOf(f, j);
    WorkerInvariant.Opened(v, f.clock);
    NamesFacts(v, f.clock);
    JobFacts(v, f.clock);
  }

  /**
   A live job never creates more servers than it has attempts, whatever crashes and ambiguous answers occur.
   */
  lemma CreationsAreBounded(f: State, j: JobId)
    requires Attainable(f) && j in f.jobs && !f.jobs[j].job.dryRun
    ensures |set k | k in f.servers && f.servers[k].name.CandidateName? && f.servers[k].name.job == j| <= f.jobs[j].job.maxAttempts
  {
    hide Attainable;
    NamesAreInRange(f, j);
    ServersUpTo(f, j, f.jobs[j].job.attempt);
    assert (set k | k in f.servers && f.servers[k].name.CandidateName? && f.servers[k].name.job == j)
        == ServersOf(f, j, f.jobs[j].job.attempt);
  }

  // ---- Admission ----

  /** Never more active jobs than configured, one per node, and one job per request key. */
  lemma AdmissionHolds(f: State)
    requires Attainable(f)
    ensures |Active(f)| <= f.cfg.maxConcurrent
    ensures OneActivePerNode(f) && KeysUnique(f)
  {
    hide Attainable, JobsIn, NamesKnown, LogsKnown, RowsClaimed;
    AttainableOrderly(f);
  }

  // ---- The events of a job ----

  /** What the job's view becomes by an event of its own. */
  function OwnEvent(f: State, e: Event, j: JobId): View
    requires HasView(f, j) && (e.Take? || e.Die? || e.Step? || e.Stop?)
  {
    var v := ViewOf(f, j);
    match e
    case Take(_) => Acquire(v)
    case Die(_) => Crash(v)
    case Step(_, i) => Work(v, EnvOf(f), i)
    case _ => Cancel(v)
  }

  lemma EventTouches(f: State, e: Event, j: JobId)
    requires JobIn(f, j) && Possible(f, e) && (e.Take? || e.Die? || e.Step? || e.Stop?) && e.id == j
    ensures After(f, e) == Put(f, OwnEvent(f, e, j)) && Touches(ViewOf(f, j), OwnEvent(f, e, j))
  {
    hide Touches, Plausible, Visible, Work, Cancel;
    var v := ViewOf(f, j);
    match e {
      case Take(_) => QuietTouches(v, Acquire(v));
      case Die(_) => QuietTouches(v, Crash(v));
      case Step(_, i) => WorkTouches(v, EnvOf(f), i);
      case Stop(_) => CancelTouches(v, f.clock);
    }
  }

  lemma OwnStep(f: State, e: Event, j: JobId)
    requires Orderly(f) && Possible(f, e) && HasView(f, j) && (e.Take? || e.Die? || e.Step? || e.Stop?) && e.id == j
    ensures StepOf(f, j, OwnEvent(f, e, j))
  {
    hide Orderly, Touches, Plausible, Visible, Work, Cancel;
    var v := ViewOf(f, j);
    OneJob(f, j);
    EventTouches(f, e, j);
    match e {
      case Take(_) => AcquireKeeps(v, f.clock); QuietStepOf(f, j, Acquire(v));
      case Die(_) => CrashKeeps(v, f.clock); QuietStepOf(f, j, Crash(v));
      case Step(_, i) => WorkKeeps(v, EnvOf(f), i);
      case Stop(_) => CancelKeeps(v, f.clock);
    }
  }

  lemma NotBothActive(f: State, id: JobId, w: View, j: JobId)
    requires OneActivePerNode(f) && StepOf(f, id, w) && HasView(f, j) && j != id
    ensures HasView(f, id) && (f.jobs[j].job.node == f.jobs[id].job.node ==> !(f.jobs[j].job.active && f.jobs[id].job.active))
  {
    hide Touches;
    assert ActiveOn(f, j, f.jobs[j].job.node) == f.jobs[j].job.active;
    assert ActiveOn(f, id, f.jobs[id].job.node) == f.jobs[id].job.active;
  }

  lemma OneActive(f: State)
    requires Orderly(f)
    ensures OneActivePerNode(f)
  {
    hide JobsIn, NamesKnown, LogsKnown, RowsClaimed, KeysUnique;
  }

  predicate Own(e: Event, j: JobId) { (e.Take? || e.Die? || e.Step? || e.Stop?) && e.id == j }

  /** An event of another job, of a node or of the clock leaves the rows and the worker of job j alone. */
  lemma ForeignEvent(f: State, e: Event, j: JobId)
    requires Orderly(f) && Possible(f, e) && j in f.jobs && !Own(e, j)
    ensures j in After(f, e).jobs && After(f, e).jobs[j] == f.jobs[j]
  {
    hide Orderly, Plausible, Visible, Work, Cancel, Acquire, RegistryTouched, CloudTouched, MasterTouched, Answer,
      ClosingDeployment, OwnEvent;
    if (e.Take? || e.Die? || e.Step? || e.Stop?) && HasView(f, e.id) {
      OneJob(f, e.id);
      EventTouches(f, e, e.id);
    }
  }

  /** Jobs are never removed and never change what they were admitted with. */
  lemma OriginStays(f: State, e: Event, j: JobId)
    requires Orderly(f) && Possible(f, e) && j in f.jobs
    ensures j in After(f, e).jobs && SameOrigin(f.jobs[j].job, After(f, e).jobs[j].job)
  {
    hide Orderly, After, RegistryTouched, CloudTouched, MasterTouched, OwnEvent, Possible;
    OneJob(f, j);
    if Own(e, j) {
      EventTouches(f, e, j);
    } else {
      ForeignEvent(f, e, j);
    }
  }

  lemma {:induction false} OriginStaysAlong(f: State, es: seq<Event>, j: JobId)
    requires Orderly(f) && PossibleHistory(f, es) && j in f.jobs
    ensures Orderly(History(f, es))
    ensures j in History(f, es).jobs && SameOrigin(f.jobs[j].job, History(f, es).jobs[j].job)
  {
    hide Orderly, After, Possible;
    if es != [] {
      var front := es[..|es| - 1];
      forall n | 0 <= n < |front| ensures Possible(History(f, front[..n]), front[n]) {
        assert front[..n] == es[..n];
      }
      OriginStaysAlong(f, front, j);
      OriginStays(History(f, front), es[|es| - 1], j);
      AfterOrderly(History(f, front), es[|es| - 1]);
    }
  }

  /** A live job that stops being live without completing was ended by the failure path or by a cancel. */
  lemma EndsByFailing(v: View, env: Env, i: Input)
    requires Inv(v, env.clock) && Live(v.job) && !Work(v, env, i).job.active && Work(v, env, i).job.checkpoint != Completed
    ensures Work(v, env, i) == Leave(Ended(v, Failed))
  {
    hide Work, AtStage, AtOldDone, AtDryDone, AtFailing, Ended;
    WorkerInvariant.Opened(v, env.clock);
    JobFacts(v, env.clock);
    WorkAtPlace(v, env, i);
    if !Loud(v.run.pc) {
      QuietWork(v, env, i);
    } else if v.run.pc == OldDone {
      OldDoneEndsCompleted(v, env, i);
    } else if v.run.pc == Failing {
      FailingEndsLive(v);
    } else if v.run.pc != DryDone {
      LoudIsOngoing(v, env, i);
    }
  }

  lemma FailingEndsLive(v: View)
    requires !Terminal(v.job.checkpoint)
    ensures AtFailing(v) == Leave(Ended(v, Failed))
  {
    hide Ended;
  }

  lemma OldDoneEndsCompleted(v: View, env: Env, i: Input)
    requires v.job.active
    ensures !AtOldDone(v, env, i).job.active ==> AtOldDone(v, env, i).job.checkpoint == Completed
  {
    hide Allowed, CanTransition;
  }

  // ---- Operation modes ----

  /**
   A mode change disables any node without an active job, enables exactly a disabled one, and does nothing
   else.
   */
  lemma ModeChangeIsExact(f: State, n: NodeId, disable: bool)
    ensures var free := n in f.nodes && forall j :: j in f.jobs && f.jobs[j].job.node == n ==> !f.jobs[j].job.active;
            After(f, SetMode(n, disable)) ==
            if free && (disable || f.nodes[n].row.state == Disabled) then
              f.(nodes := f.nodes[n := f.nodes[n].(row := f.nodes[n].row.(state := if disable then Disabled else Unknown))])
            else f
  {
    if n in f.nodes {
      LifecycleShape(f.nodes[n].row.state);
    }
  }

  // ---- Completion ----

  /**
   A live job is completed only by its own last commit, which leaves exactly these rows and no others
   changed.
   */
  lemma CompletionByEvent(f: State, e: Event, j: JobId)
    requires Attainable(f) && Possible(f, e) && j in f.jobs && Live(f.jobs[j].job)
    requires j in After(f, e).jobs && After(f, e).jobs[j].job.checkpoint == Completed
    ensures HasView(f, j) && HasPanel(ViewOf(f, j)) && e == Step(j, Ok)
    ensures var v, g, n := ViewOf(f, j), After(f, e), f.jobs[j].job.node;
            && n in g.nodes && MovedTo(g.nodes[n].row, v.node, v.vps[v.job.newVps.value].host, ConfigOf(v))
            && Handed(g.vps, f.vps, v.job.oldVps, v.job.newVps.value)
            && g == f.(jobs := f.jobs[j := g.jobs[j]], nodes := f.nodes[n := f.nodes[n].(row := g.nodes[n].row)], vps := g.vps)
  {
    hide Attainable, Orderly, After, Possible, Touches, Work, Completes, MovedTo, Handed, OwnEvent;
    AttainableOrderly(f);
    AttainableView(f, j);
    OneJob(f, j);
    OpenBefore(f, j);
    if Own(e, j) {
      EventTouches(f, e, j);
      CompletingStep(f, e, j);
      CompletedPut(f, j, OwnEvent(f, e, j));
    } else {
      ForeignEvent(f, e, j);
    }
  }

  lemma OpenBefore(f: State, j: JobId)
    requires JobIn(f, j) && f.jobs[j].job.active
    ensures f.jobs[j].job.checkpoint != Completed
  {
    CompletedIsInactive(ViewOf(f, j), f.clock);
  }

  lemma CompletingStep(f: State, e: Event, j: JobId)
    requires JobIn(f, j) && Possible(f, e) && Own(e, j) && Live(f.jobs[j].job)
    requires OwnEvent(f, e, j).job.checkpoint == Completed
    ensures e == Step(j, Ok) && Completes(ViewOf(f, j), OwnEvent(f, e, j))
  {
    hide Work, Completes, Plausible, Visible, Ended;
    var v := ViewOf(f, j);
    CompletedIsInactive(v, f.clock);
    match e {
      case Step(_, i) => CompletionRows(v, EnvOf(f), i);
      case Stop(_) => CancelNeverCompletes(v);
      case _ =>
    }
  }

  lemma CancelNeverCompletes(v: View)
    ensures Cancel(v).job.checkpoint == v.job.checkpoint || Cancel(v).job.checkpoint == Cancelled
  {
    hide NodeAfterFailure, Allowed;
  }

  lemma CompletedPut(f: State, j: JobId, w: View)
    requires HasView(f, j) && Completes(ViewOf(f, j), w)
    ensures HasPanel(ViewOf(f, j))
    ensures var v, g, n := ViewOf(f, j), Put(f, w), f.jobs[j].job.node;
            && n in g.nodes && MovedTo(g.nodes[n].row, v.node, v.vps[v.job.newVps.value].host, ConfigOf(v))
            && Handed(g.vps, f.vps, v.job.oldVps, v.job.newVps.value)
            && g == f.(jobs := f.jobs[j := g.jobs[j]], nodes := f.nodes[n := f.nodes[n].(row := g.nodes[n].row)], vps := g.vps)
  {
    hide MovedTo, Handed;
  }

  // ---- A cancelled job and the Master ----

  lemma SlotStaysAway(f: State, e: Event, j: JobId)
    requires JobIn(f, j) && Possible(f, e) && Own(e, j) && !f.jobs[j].job.active && !MaySwitch(ViewOf(f, j))
    ensures var w := OwnEvent(f, e, j);
            !w.job.active && !MaySwitch(w) && w.id == j && w.job.node == f.jobs[j].job.node
  {
    hide Work, Cancel, Plausible, Visible, RegistryTouched, CloudTouched, MasterTouched, MaySwitch;
    var v := ViewOf(f, j);
    EventTouches(f, e, j);
    match e {
      case Step(_, i) => WorkStaysAway(v, EnvOf(f), i);
      case Stop(_) => CancelStaysAway(v, f.clock);
      case _ => MovingStaysAway(v);
    }
  }

  /** What others write to the Master is signed by them. */
  lemma ForeignLog(f: State, e: Event, j: JobId)
    requires Orderly(f) && Possible(f, e) && j in f.jobs && !Own(e, j) && HasView(f, j)
    ensures HasView(After(f, e), j)
    ensures WasSwitched(j, ViewOf(After(f, e), j).log) ==> WasSwitched(j, ViewOf(f, j).log)
  {
    hide Orderly, Plausible, Visible, Work, Cancel, Acquire, RegistryTouched, CloudTouched, Answer, OwnEvent,
      WasSwitched;
    var v := ViewOf(f, j);
    if (e.Take? || e.Die? || e.Step? || e.Stop?) && HasView(f, e.id) {
      OneJob(f, e.id);
      EventTouches(f, e, e.id);
      var w := OwnEvent(f, e, e.id);
      ExtendedLog(j, v.log, MasterWrite(Switcher(e.id), w.master));
      ExtendedLog(j, v.log, MasterWrite(Reverter(e.id), w.master));
    } else if e.EditMaster? {
      ExtendedLog(j, v.log, MasterWrite(Outsider, e.record));
    }
  }

  lemma EventStaysAway(f: State, e: Event, j: JobId)
    requires Orderly(f) && Possible(f, e) && HasView(f, j)
    requires !f.jobs[j].job.active && !MaySwitch(ViewOf(f, j))
    ensures HasView(After(f, e), j) && !After(f, e).jobs[j].job.active && !MaySwitch(ViewOf(After(f, e), j))
  {
    hide Orderly, After, OwnEvent, Possible, Touches, WasSwitched;
    OneJob(f, j);
    if Own(e, j) {
      SlotStaysAway(f, e, j);
      EventTouches(f, e, j);
    } else {
      ForeignEvent(f, e, j);
      ForeignLog(f, e, j);
    }
  }

  lemma {:induction false} HistoryStaysAway(f: State, es: seq<Event>, j: JobId)
    requires Orderly(f) && PossibleHistory(f, es) && HasView(f, j)
    requires !f.jobs[j].job.active && !MaySwitch(ViewOf(f, j))
    ensures Orderly(History(f, es))
    ensures var g := History(f, es); HasView(g, j) && !g.jobs[j].job.active && !MaySwitch(ViewOf(g, j))
  {
    hide Orderly, After, Possible, MaySwitch, HasView, ViewOf;
    if es != [] {
      var front := es[..|es| - 1];
      forall n | 0 <= n < |front| ensures Possible(History(f, front[..n]), front[n]) {
        assert front[..n] == es[..n];
      }
      HistoryStaysAway(f, front, j);
      EventStaysAway(History(f, front), es[|es| - 1], j);
      AfterOrderly(History(f, front), es[|es| - 1]);
    }
  }

  /**
   A live job cancelled before MASTER_UPDATING -- or later, with no switch landed and its worker not
   past the last renewal in front of one -- never switches the Master, in no history that follows.
   */
  lemma CancelledJobsLeaveTheMaster(f: State, j: JobId, es: seq<Event>)
    requires Attainable(f) && j in f.jobs && HasView(f, j) && Live(f.jobs[j].job) && !f.jobs[j].job.masterUpdated
    requires Rank(f.jobs[j].job.checkpoint) <= 7 || !MaySwitch(ViewOf(f, j))
    requires PossibleHistory(After(f, Stop(j)), es)
    ensures var g := History(After(f, Stop(j)), es); HasView(g, j) && !WasSwitched(j, ViewOf(g, j).log)
  {
    hide Orderly, Attainable, Cancel, WasSwitched, PossibleHistory;
    AttainableOrderly(f);
    AttainableView(f, j);
    var v := ViewOf(f, j);
    if Rank(v.job.checkpoint) <= 7 {
      EarlyJobsHaveNotSwitched(v, f.clock);
    }
    CancelIs(v, f.clock);
    AfterOrderly(f, Stop(j));
    HistoryStaysAway(After(f, Stop(j)), es, j);
  }
}
