/**
 What becomes of a job that has deleted its old server, over every history and with cancels at any
 moment: it completes, exactly unless a hard error is recorded.
 */
module Completion {
  import opened Types
  import opened CheckpointGraph
  import opened NodeLifecycle
  import opened MasterAlgebra
  import opened Worker
  import opened WorkerInvariant
  import opened WorkerEffects
  import opened NodeCoupling
  import opened JobGuarantees
  import opened Decisions
  import opened JobRuns
  import opened Fleet
  import opened FleetInvariant
  import opened FleetTheorems
  import opened NodePromotion

  /** A live job at its last checkpoint whose old server is gone. */
  predicate OldIsGone(v: View) {
    && Live(v.job) && v.job.checkpoint == OldVpsCleanup
    && v.job.oldVps in v.servers && !v.servers[v.job.oldVps].alive
  }

  /** Its worker, if any, is past the deletion. */
  predicate Finishing(v: View) {
    && OldIsGone(v)
    && (v.run.pc == Idle || v.run.pc == LoopTop || v.run.pc == Enter(OldVpsCleanup) || v.run.pc.OldGet? || v.run.pc == OldDone)
  }

  /** Its worker is about to record an error. */
  predicate Erring(v: View) { OldIsGone(v) && v.run.pc == Failing }

  /** The provider shows the server it is asked for, and only while it exists. */
  predicate Shows(v: View, i: Input) {
    v.run.pc.OldGet? && i.Saw? ==> i.server == v.run.pc.server && i.server in v.servers && v.servers[i.server].alive
  }

  /** The worker is somewhere an exception reaches it: it exists and has not met its step limit. */
  predicate Heeds(v: View) {
    v.run.pc != Idle && (v.run.pc == LoopTop ==> v.run.dispatches < STEP_LIMIT)
  }

  // ---- One step ----

  lemma FinishingAtTheDoor(v: View, env: Env, i: Input)
    requires Inv(v, env.clock) && Finishing(v) && env.granted && v.run.pc == Enter(OldVpsCleanup)
    ensures var w := AtOldVpsCleanup(v, env, i);
            (Finishing(w) <==> !i.Broken?) && (i.Broken? ==> Erring(w)) && w.job == v.job
  {
    hide GuardPermits;
    GuardNeverDenies(v, env.clock);
  }

  lemma FinishingDone(v: View, env: Env, i: Input)
    requires Inv(v, env.clock) && Unobstructed(v) && Finishing(v) && v.run.pc == OldDone
    ensures var w := AtOldDone(v, env, i);
            && (i == Ok ==> w.job.checkpoint == Completed && w.servers == v.servers && w.job.oldVps == v.job.oldVps)
            && (i.Broken? ==> Erring(w)) && (i != Ok && !i.Broken? ==> w == v)
  {
    hide Replaced, CanTransition, Unobstructed;
    WorkerInvariant.Opened(v, env.clock);
    ReplacedRows(v, env.clock);
    ReplacedJob(v);
    FinalCommitIsOpen(v);
  }

  lemma FinishingLook(v: View, env: Env, i: Input)
    requires Inv(v, env.clock) && Finishing(v) && Shows(v, i) && v.run.pc.OldGet?
    ensures var w := AtOldGet(v, env, i);
            (Finishing(w) <==> !i.Broken?) && (i.Broken? ==> Erring(w)) && w.job == v.job
  {
    Opened(v, env.clock);
  }

  lemma FinishingAtTheTop(v: View, env: Env, i: Input)
    requires Inv(v, env.clock) && Finishing(v) && (v.run.pc == LoopTop || v.run.pc == Idle)
    ensures var w := Work(v, env, i);
            (Finishing(w) <==> !(Heeds(v) && i.Broken?)) && (Heeds(v) && i.Broken? ==> Erring(w)) && w.job == v.job
  {
  }

  /**
   One step of such a worker: exactly a hard error anywhere but in a worker at its limit takes the job off
   its way.
   */
  lemma FinishingStep(v: View, env: Env, i: Input)
    requires Inv(v, env.clock) && Unobstructed(v) && env.granted && Finishing(v) && Shows(v, i)
    ensures var w := Work(v, env, i);
            && (Finishing(w) || w.job.checkpoint == Completed <==> !(Heeds(v) && i.Broken?))
            && (Heeds(v) && i.Broken? ==> Erring(w))
            && (w.job.checkpoint == Completed <==> v.run.pc == OldDone && i == Ok)
  {
    hide Work, InOrder, Unobstructed, AtOldVpsCleanup, AtOldDone, AtOldGet, AtLoopTop;
    if v.run.pc == Enter(OldVpsCleanup) {
      WorkAtStage(v, env, i);
      FinishingAtTheDoor(v, env, i);
    } else if v.run.pc == OldDone {
      WorkAtPlace(v, env, i);
      FinishingDone(v, env, i);
    } else if v.run.pc.OldGet? {
      WorkAtLook(v, env, i);
      FinishingLook(v, env, i);
    } else {
      FinishingAtTheTop(v, env, i);
    }
  }

  /**
   The error is recorded: the job is FAILED, its node too if it was in the workflow, and the old server is
   gone.
   */
  lemma ErringStep(v: View, env: Env, i: Input)
    requires Inv(v, env.clock) && Erring(v)
    ensures var w := Work(v, env, i);
            && w.job.checkpoint == Failed && !w.job.active
            && w.node.state == (if InWorkflow(v.node.state) then NodeFailed else v.node.state)
            && w.job.oldVps in w.servers && !w.servers[w.job.oldVps].alive
  {
    hide Ended;
    WorkerInvariant.Opened(v, env.clock);
    JobFacts(v, env.clock);
    EndingIsNeverRefused(v, Failed, env.clock);
  }

  /**
   A deletion that reaches the provider puts the job on its way exactly unless the call itself ends in a hard
   error.
   */
  lemma DeletionOutcome(v: View, env: Env, i: Input)
    requires Inv(v, env.clock) && v.run.pc.OldDelete? && Dies(v, Work(v, env, i), v.job.oldVps)
    ensures Finishing(Work(v, env, i)) <==> !i.Broken?
    ensures i.Broken? ==> Erring(Work(v, env, i))
  {
    OldDeleteIsGated(v, env.clock);
  }

  /** A hard error of the delete call: the job is recorded FAILED although its old server is gone. */
  lemma HardErrorLosesBoth(v: View, env: Env)
    requires Inv(v, env.clock) && v.run.pc.OldDelete? && SameWorld(v, v.job.oldVps)
    ensures var failed := AtFailing(AtOldDelete(v, env, Broken(true)));
            && failed.job.checkpoint == Failed && (Coupled(v) ==> failed.node.state == NodeFailed)
            && v.job.oldVps in failed.servers && !failed.servers[v.job.oldVps].alive
  {
    hide Ended;
    var w := AtOldDelete(v, env, Broken(true));
    OldDeleteIsGated(v, env.clock);
    OldDeleteKeeps(v, env, Broken(true));
    ErringStep(w, env, Ok);
  }

  /** So does an error of the final commit after a deletion that succeeded. */
  lemma CommitErrorLosesBoth(v: View, env: Env)
    requires Inv(v, env.clock) && Finishing(v) && v.run.pc == OldDone
    ensures var failed := AtFailing(AtOldDone(v, env, Broken(false)));
            && failed.job.checkpoint == Failed && (Coupled(v) ==> failed.node.state == NodeFailed)
            && v.job.oldVps in failed.servers && !failed.servers[v.job.oldVps].alive
  {
    hide Ended;
    var w := AtOldDone(v, env, Broken(false));
    OldDoneKeeps(v, env, Broken(false));
    ErringStep(w, env, Ok);
  }

  /**
   And so does a provider that still shows the deleted server, as one with a delayed listing may: the
   job asks for its deletion again, and a 404 of the delete call is not caught.
   */
  lemma ShownAfterDeletionLosesBoth(v: View, env: Env)
    requires Inv(v, env.clock) && Finishing(v) && v.run.pc.OldGet? && SameWorld(v, v.job.oldVps)
    ensures var shows := Saw(v.job.oldVps, v.servers[v.job.oldVps].name, v.run.pc.host);
            var shown := Work(v, env, shows);
            var failed := AtFailing(Work(shown, env, NotFound));
            && Plausible(v, env, shows) && Visible(v, env, shows) && !Shows(v, shows)
            && !Finishing(shown) && shown.run.pc.OldDelete? && Work(shown, env, NotFound).run.pc == Failing
            && failed.job.checkpoint == Failed && !failed.job.active
            && v.job.oldVps in failed.servers && !failed.servers[v.job.oldVps].alive
  {
    hide Work, InOrder, Ended;
    OldGetLooksAtOld(v, env.clock);
    LookRepeats(v, env);
    FallKeeps(v, env.clock);
    ErringStep(Fall(v), env, Ok);
    assert Work(Fall(v), env, Ok) == AtFailing(Fall(v)) by { FailingWork(v, env); }
  }

  lemma OldGetLooksAtOld(v: View, clock: nat)
    requires Inv(v, clock) && v.run.pc.OldGet?
    ensures v.run.pc.server == v.job.oldVps
  {
    WorkerInvariant.Opened(v, clock);
  }

  lemma LookRepeats(v: View, env: Env)
    requires OldIsGone(v) && v.run.pc.OldGet? && v.run.pc.server == v.job.oldVps
    ensures Work(v, env, Saw(v.job.oldVps, v.servers[v.job.oldVps].name, v.run.pc.host)) == Go(v, OldDelete(v.job.oldVps))
    ensures Work(Go(v, OldDelete(v.job.oldVps)), env, NotFound) == Fall(v)
  {
  }

  lemma FailingWork(v: View, env: Env)
    ensures Work(Fall(v), env, Ok) == AtFailing(Fall(v))
  {
  }

  lemma FallKeeps(v: View, clock: nat)
    requires Inv(v, clock) && v.job.active && v.job.checkpoint == OldVpsCleanup && InStage(v.run.pc)
    ensures Inv(Fall(v), clock)
  {
    WorkerInvariant.Opened(v, clock);
    GivingUpKeeps(v, clock);
  }

  // ---- Whole histories ----

  /** Where a job is that has deleted its old server. */
  datatype Phase = OnTheWay | Troubled | Through | Lost

  predicate GoneIn(f: State, k: ServerId) { k in f.servers && !f.servers[k].alive }

  predicate CompletedIn(f: State, j: JobId) {
    j in f.jobs && f.jobs[j].job.checkpoint == Completed
  }

  /** Recorded as failed although its old server is gone. */
  predicate LostIn(f: State, j: JobId) {
    j in f.jobs && f.jobs[j].job.checkpoint == Failed && !f.jobs[j].job.active && GoneIn(f, f.jobs[j].job.oldVps)
  }

  predicate FinishingIn(f: State, j: JobId) { HasView(f, j) && Finishing(ViewOf(f, j)) }

  predicate ErringIn(f: State, j: JobId) { HasView(f, j) && Erring(ViewOf(f, j)) }

  predicate Is(p: Phase, f: State, j: JobId) {
    match p
    case OnTheWay => FinishingIn(f, j)
    case Troubled => ErringIn(f, j)
    case Through => CompletedIn(f, j)
    case Lost => LostIn(f, j)
  }

  lemma PhasesExclude(p: Phase, q: Phase, f: State, j: JobId)
    requires Is(p, f, j) && Is(q, f, j)
    ensures p == q
  {
  }

  /** A hard error reaches the worker of job j. */
  predicate HardError(f: State, e: Event, j: JobId) {
    e.Step? && e.id == j && HasView(f, j) && Heeds(ViewOf(f, j)) && e.input.Broken?
  }

  /** The final commit of job j goes through. */
  predicate FinalCommit(f: State, e: Event, j: JobId) {
    e.Step? && e.id == j && HasView(f, j) && ViewOf(f, j).run.pc == OldDone && e.input == Ok
  }

  function NextPhase(p: Phase, f: State, e: Event, j: JobId): Phase {
    match p
    case OnTheWay => if HardError(f, e, j) then Troubled else if FinalCommit(f, e, j) then Through else OnTheWay
    case Troubled =>
      if e.Step? && e.id == j then Lost            // the error is recorded
      else if e.Die? && e.id == j then OnTheWay    // the worker dies before
      else Troubled
    case _ => p
  }

  predicate ShowsEvent(f: State, e: Event, j: JobId) {
    e.Step? && e.id == j && HasView(f, j) ==> Shows(ViewOf(f, j), e.input)
  }

  /** A possible history in which the provider shows job j only servers that exist. */
  ghost predicate FairHistory(f: State, es: seq<Event>, j: JobId) {
    PossibleHistory(f, es) && forall n :: 0 <= n < |es| ==> ShowsEvent(History(f, es[..n]), es[n], j)
  }

  /** The phase after a history, step by step. */
  ghost function PhaseAfter(p: Phase, f: State, es: seq<Event>, j: JobId): Phase {
    if es == [] then p
    else
      var front := es[..|es| - 1];
      NextPhase(PhaseAfter(p, f, front, j), History(f, front), es[|es| - 1], j)
  }

  lemma OwnOrigin(f: State, e: Event, j: JobId)
    requires HasView(f, j) && Own(e, j) && Touches(ViewOf(f, j), OwnEvent(f, e, j))
    ensures OwnEvent(f, e, j).id == j && OwnEvent(f, e, j).job.node == f.jobs[j].job.node
    ensures OwnEvent(f, e, j).job.oldVps == f.jobs[j].job.oldVps
  {
  }

  lemma DeadStaysDead(f: State, e: Event, k: ServerId)
    requires Orderly(f) && Possible(f, e) && GoneIn(f, k)
    ensures GoneIn(After(f, e), k)
  {
    hide Orderly, Work, Cancel, Plausible, Visible, Answer, RegistryTouched, MasterTouched, OwnEvent;
    if (e.Take? || e.Die? || e.Step? || e.Stop?) && HasView(f, e.id) {
      OneJob(f, e.id);
      EventTouches(f, e, e.id);
    }
  }

  lemma OnTheWayOwn(f: State, e: Event, j: JobId)
    requires JobIn(f, j) && OpenIn(f, j) && Possible(f, e) && FinishingIn(f, j) && ShowsEvent(f, e, j) && Own(e, j)
    ensures var w := OwnEvent(f, e, j);
            match NextPhase(OnTheWay, f, e, j)
            case OnTheWay => Finishing(w)
            case Troubled => Erring(w)
            case Through => w.job.checkpoint == Completed
            case Lost => false
  {
    hide Work, Plausible, Visible, Unobstructed;
    if e.Step? {
      FinishingStep(ViewOf(f, j), EnvOf(f), e.input);
    } else {
      MarkersFormPrefix(ViewOf(f, j), f.clock);
    }
  }

  lemma TroubledOwn(f: State, e: Event, j: JobId)
    requires JobIn(f, j) && ErringIn(f, j) && Own(e, j)
    ensures var w := OwnEvent(f, e, j);
            match NextPhase(Troubled, f, e, j)
            case OnTheWay => Finishing(w)
            case Troubled => Erring(w)
            case Through => false
            case Lost => w.job.checkpoint == Failed && !w.job.active
  {
    hide Work, Ended, InOrder;
    if e.Step? {
      ErringStep(ViewOf(f, j), EnvOf(f), e.input);
    } else {
      LateMarkers(ViewOf(f, j), f.clock);
    }
  }

  lemma LateMarkers(v: View, clock: nat)
    requires Inv(v, clock) && OldIsGone(v)
    ensures v.job.masterUpdated
  {
    MarkersFormPrefix(v, clock);
  }

  lemma EndedOwn(f: State, e: Event, j: JobId)
    requires JobIn(f, j) && j in f.jobs && Terminal(f.jobs[j].job.checkpoint) && Own(e, j)
    requires f.jobs[j].job.checkpoint != Cancelled
    ensures OwnEvent(f, e, j).job.checkpoint == f.jobs[j].job.checkpoint
  {
    hide AtStage;
    WorkerInvariant.Opened(ViewOf(f, j), f.clock);
    JobFacts(ViewOf(f, j), f.clock);
  }

  lemma OwnPhase(p: Phase, f: State, e: Event, j: JobId)
    requires JobIn(f, j) && OpenIn(f, j) && Orderly(f) && Possible(f, e) && Is(p, f, j) && ShowsEvent(f, e, j) && Own(e, j)
    ensures Is(NextPhase(p, f, e, j), After(f, e), j)
  {
    hide Orderly, After, Work, Possible, RegistryTouched, CloudTouched, MasterTouched, Unobstructed, OwnEvent;
    EventTouches(f, e, j);
    OwnOrigin(f, e, j);
    match p {
      case OnTheWay => OnTheWayOwn(f, e, j);
      case Troubled => TroubledOwn(f, e, j); DeadStaysDead(f, e, f.jobs[j].job.oldVps);
      case Through => EndedOwn(f, e, j);
      case Lost => EndedOwn(f, e, j); DeadStaysDead(f, e, f.jobs[j].job.oldVps);
    }
  }

  lemma ForeignPhase(p: Phase, f: State, e: Event, j: JobId)
    requires Orderly(f) && Possible(f, e) && Is(p, f, j) && !Own(e, j)
    ensures Is(p, After(f, e), j)
  {
    hide Orderly, After, Possible;
    ForeignEvent(f, e, j);
    AfterOrderly(f, e);
    OneJob(After(f, e), j);
    if p != Through {
      DeadStaysDead(f, e, f.jobs[j].job.oldVps);
    }
  }

  lemma PhaseMoves(p: Phase, f: State, e: Event, j: JobId)
    requires Attainable(f) && Possible(f, e) && Is(p, f, j) && ShowsEvent(f, e, j)
    ensures Is(NextPhase(p, f, e, j), After(f, e), j)
  {
    hide Attainable, Orderly, After, Possible, OpenIn, ShowsEvent, Finishing, Erring;
    AttainableOpen(f);
    if Own(e, j) {
      OneJob(f, j);
      assert OpenIn(f, j);
      OwnPhase(p, f, e, j);
    } else {
      ForeignPhase(p, f, e, j);
    }
  }

  /**
   From the deletion on the phase of a job is known exactly, whatever crashes, deferrals, cancels
   and other jobs come: a hard error and nothing else takes it off its way, the step after it and
   nothing else records it FAILED, and the death of the worker in between brings it back.
   */
  lemma {:induction false} PhaseIsExact(p: Phase, f: State, es: seq<Event>, j: JobId)
    requires Attainable(f) && FairHistory(f, es, j) && Is(p, f, j)
    ensures forall q :: Is(q, History(f, es), j) <==> q == PhaseAfter(p, f, es, j)
  {
    hide Attainable, After, Possible, Is, ShowsEvent, NextPhase;
    if es != [] {
      var front, e := es[..|es| - 1], es[|es| - 1];
      forall n | 0 <= n < |front|
        ensures Possible(History(f, front[..n]), front[n]) && ShowsEvent(History(f, front[..n]), front[n], j)
      {
        assert front[..n] == es[..n];
      }
      PhaseIsExact(p, f, front, j);
      AttainableAlong(f, front);
      PhaseMoves(PhaseAfter(p, f, front, j), History(f, front), e, j);
    }
    assert Is(PhaseAfter(p, f, es, j), History(f, es), j);
    forall q | Is(q, History(f, es), j) ensures q == PhaseAfter(p, f, es, j) {
      PhasesExclude(q, PhaseAfter(p, f, es, j), History(f, es), j);
    }
  }

  /** In particular it can end only COMPLETED as long as no hard error reaches its worker. */
  lemma {:induction false} OldDeletionLeadsToCompletion(f: State, es: seq<Event>, j: JobId)
    requires Attainable(f) && FairHistory(f, es, j) && FinishingIn(f, j)
    requires forall n :: 0 <= n < |es| ==> !HardError(History(f, es[..n]), es[n], j)
    ensures FinishingIn(History(f, es), j) || CompletedIn(History(f, es), j)
  {
    hide Attainable, History, HardError, FairHistory, FinishingIn, CompletedIn;
    PhaseIsExact(OnTheWay, f, es, j);
    NeverTroubled(f, es, j);
    assert Is(PhaseAfter(OnTheWay, f, es, j), History(f, es), j);
  }

  lemma {:induction false} NeverTroubled(f: State, es: seq<Event>, j: JobId)
    requires forall n :: 0 <= n < |es| ==> !HardError(History(f, es[..n]), es[n], j)
    ensures PhaseAfter(OnTheWay, f, es, j).OnTheWay? || PhaseAfter(OnTheWay, f, es, j).Through?
  {
    hide HardError, FinalCommit, History;
    if es != [] {
      var front := es[..|es| - 1];
      forall n | 0 <= n < |front| ensures !HardError(History(f, front[..n]), front[n], j) {
        assert front[..n] == es[..n];
      }
      NeverTroubled(f, front, j);
      assert !HardError(History(f, front), es[|es| - 1], j);
    }
  }
}
