/**
 Runs that end badly, all of them from a freshly admitted live job: the situations that the witnesses
 need do come about.
 */
module JobWitnesses {
  import opened Types
  import opened CheckpointGraph
  import opened NodeLifecycle
  import opened MasterAlgebra
  import opened Worker
  import opened WorkerInvariant
  import opened WorkerEffects
  import opened NodeCoupling
  import opened JobGuarantees
  import opened JobRuns
  import opened JobProgress
  import Completion

  // ---- A rollback whose check is deferred ----

  function RollbackToken(v: View): Option<string>
    requires v.job.snapshot.Some?
  {
    if Flag(v.job.snapshot.value.hasApiToken, false) then v.node.credentials.apiTokenRef else None
  }

  lemma RollbackSteps(v: View, env: Env)
    requires v.run.pc == Final && v.job.snapshot.Some?
    requires Flag(v.job.snapshot.value.hasApiToken, false) ==> v.node.credentials.apiTokenRef.Some?
    ensures Work(v, env, Seen(Unreachable)) == Go(v, Rollback(FinalCheck))
    ensures Work(Go(v, Rollback(FinalCheck)), env, Ok)
            == Go(v, RollWrite(FinalCheck, FromSnapshot(v.job.snapshot.value, RollbackToken(v))))
  {
    hide Flag, FromSnapshot, Work;
    FinalIsRefused(v, env);
    RollbackReadsToken(Go(v, Rollback(FinalCheck)), env);
  }

  lemma FinalIsRefused(v: View, env: Env)
    requires v.run.pc == Final
    ensures Work(v, env, Seen(Unreachable)) == Go(v, Rollback(FinalCheck))
  {
  }

  lemma RollbackReadsToken(v: View, env: Env)
    requires v.run.pc == Rollback(FinalCheck) && v.job.snapshot.Some?
    requires Flag(v.job.snapshot.value.hasApiToken, false) ==> v.node.credentials.apiTokenRef.Some?
    ensures Work(v, env, Ok) == Go(v, RollWrite(FinalCheck, FromSnapshot(v.job.snapshot.value, RollbackToken(v))))
  {
    hide Flag, FromSnapshot;
  }

  lemma RollWriteSteps(v: View, m: Mutation, env: Env)
    ensures Work(Go(v, RollWrite(FinalCheck, m)), env, Ok) == Go(Written(v, m, Reverter(v.id)), RollCheck(FinalCheck, m))
    ensures Work(Go(Written(v, m, Reverter(v.id)), RollCheck(FinalCheck, m)), env, Transient(false))
            == Leave(Written(v, m, Reverter(v.id)))
  {
    hide Overlay;
  }

  /** The final check fails, the old record is written back, and its verification meets a transient error. */
  lemma DeferredRollback(v: View, env: Env)
    requires Inv(v, env.clock) && v.run.pc == Final && v.job.snapshot.Some?
    requires Flag(v.job.snapshot.value.hasApiToken, false) ==> v.node.credentials.apiTokenRef.Some?
    ensures var v1 := Work(v, env, Seen(Unreachable));
            var v2 := Work(v1, env, Ok);
            var v3 := Work(v2, env, Ok);
            var v4 := Work(v3, env, Transient(false));
            && v4 == Leave(v.(master := v4.master, log := v4.log)) && Inv(v4, env.clock) && v4.id == v.id
            && v4.master.address == FromSnapshot(v.job.snapshot.value, None).address
  {
    hide Flag, Text, Number, Tags, Work;
    RollbackSteps(v, env);
    RollWriteSteps(v, FromSnapshot(v.job.snapshot.value, RollbackToken(v)), env);
    var v1 := Work(v, env, Seen(Unreachable));
    var v2 := Work(v1, env, Ok);
    var v3 := Work(v2, env, Ok);
    StepKeeps(v, env, Seen(Unreachable));
    StepKeeps(v1, env, Ok);
    StepKeeps(v2, env, Ok);
    StepKeeps(v3, env, Transient(false));
  }

  lemma StepKeeps(v: View, env: Env, i: Input)
    requires Inv(v, env.clock) && (i.Ok? || i.Transient? || i.Seen?)
    ensures Inv(Work(v, env, i), env.clock)
  {
    hide Work;
    WorkKeeps(v, env, i);
  }

  /**
   A later final check looks only at the new server. So a job can complete, its old server deleted
   and its node moved to the new one, with the Master still on the record of the old server.
   */
  lemma RollbackCanSurvive(v: View, env: Env, s: Scene) returns (acts: seq<Act>)
    requires OnTrack(v, env, s) && Coupled(v) && v.run.pc == Final && !s.oneLease && v.job.snapshot.Some?
    requires Flag(v.job.snapshot.value.hasApiToken, false) ==> v.node.credentials.apiTokenRef.Some?
    ensures CredibleRun(v, env, acts)
    ensures var w := Play(v, env, acts);
            && w.job.checkpoint == Completed && w.master.address == FromSnapshot(v.job.snapshot.value, None).address
            && (Addressed(v, s) ==> w.node.host == s.address)
  {
    hide OnTrack, Happen, Credible, Work, Addressed;
    var v1 := Work(v, env, Seen(Unreachable));
    var v2 := Work(v1, env, Ok);
    var v3 := Work(v2, env, Ok);
    var v4 := Work(v3, env, Transient(false));
    assert Inv(v, env.clock) by { OnTrackInv(v, env, s); }
    DeferredRollback(v, env);
    StillOnTrack(v, v4, env, s);
    var rest := BoundIsMet(v4, env, s);
    CredibleHere(v3, env, Transient(false));
    Before(v3, env, Do(Transient(false)), rest);
    CredibleHere(v2, env, Ok);
    Before(v2, env, Do(Ok), [Do(Transient(false))] + rest);
    CredibleHere(v1, env, Ok);
    Before(v1, env, Do(Ok), [Do(Ok)] + ([Do(Transient(false))] + rest));
    CredibleHere(v, env, Seen(Unreachable));
    acts := [Do(Ok)] + ([Do(Ok)] + ([Do(Transient(false))] + rest));
    Before(v, env, Do(Seen(Unreachable)), acts);
    acts := [Do(Seen(Unreachable))] + acts;
  }

  lemma CredibleHere(v: View, env: Env, i: Input)
    requires i.Ok? || i.Transient? || i.Seen?
    ensures Credible(v, env, Do(i)) && Happen(v, env, Do(i)) == Work(v, env, i)
  {
  }

  lemma StillOnTrack(v: View, w: View, env: Env, s: Scene)
    requires OnTrack(v, env, s) && v.run.pc == Final && !s.oneLease
    requires Inv(w, env.clock) && w == Leave(v.(master := w.master, log := w.log))
    ensures OnTrack(w, env, s) && Rank(w.job.checkpoint) == 12 && (Coupled(v) ==> Coupled(w)) && (Addressed(v, s) ==> Addressed(w, s))
  {
    hide TargetFor, Verifies;
    WorkerInvariant.Opened(v, env.clock);
  }

  // ---- What a run remembers of the old record ----

  /** A record at an address that needs no token. */
  predicate Plain(n: MasterNode, a: string) { n.address == a && !n.hasApiToken }

  /** The snapshot shows an address, or the Master still does; no token is needed to write it back. */
  predicate Remembers(v: View, a: string) {
    && (v.job.snapshot.Some? ==>
          FromSnapshot(v.job.snapshot.value, None).address == a && !Flag(v.job.snapshot.value.hasApiToken, false))
    && (v.job.snapshot.None? ==> Plain(v.master, a) && (v.run.pc.Shown? ==> Plain(v.run.pc.record, a)))
  }

  lemma SnapshotSays(n: MasterNode)
    ensures FromSnapshot(SafeSnapshot(n), None).address == n.address
    ensures Flag(SafeSnapshot(n).hasApiToken, false) == n.hasApiToken
  {
  }

  lemma MasterUntilSwitch(v: View, env: Env, i: Input)
    requires Inv(v, env.clock) && Inv(Work(v, env, i), env.clock) && Live(v.job) && Rank(v.job.checkpoint) <= 7
    ensures Work(v, env, i).master == v.master
  {
    hide Work, Written, TargetFor;
    WorkerInvariant.Opened(v, env.clock);
    OnlyMasterStepsWrite(v, env, i);
    LogIsMaster(v, env.clock);
    LogIsMaster(Work(v, env, i), env.clock);
  }

  lemma LogIsMaster(v: View, clock: nat)
    requires Inv(v, clock)
    ensures LogOk(v.log, v.master)
  {
    WorkerInvariant.Opened(v, clock);
    assert Examined(v, v);
  }

  lemma DeploySavesNothing(v: View, env: Env, i: Input)
    requires v.run.pc.Deploy?
    ensures Work(v, env, i).job.snapshot == v.job.snapshot && !Work(v, env, i).run.pc.Shown?
  {
  }

  lemma PreflightSaves(v: View, env: Env, i: Input, a: string)
    requires Live(v.job) && Remembers(v, a) && (v.run.pc == Enter(NodeVerified) || v.run.pc == Preflight || v.run.pc.Shown? || v.run.pc == Tested)
    ensures Remembers(Work(v, env, i), a)
  {
    hide TargetFor, FromSnapshot, Allowed;
    if v.run.pc.Shown? {
      SnapshotSays(v.run.pc.record);
    }
  }

  /** The places of a live job at NODE_VERIFIED or just before it. */
  lemma PlacesBeforeSwitch(v: View, clock: nat)
    requires Inv(v, clock) && v.job.active && v.job.checkpoint == NodeVerified
    ensures !InStage(v.run.pc) || v.run.pc == Enter(NodeVerified) || v.run.pc == Preflight || v.run.pc.Shown? || v.run.pc == Tested
  {
    WorkerInvariant.Opened(v, clock);
  }

  lemma GoneTarget(v: View, env: Env, i: Input)
    ensures var c := AtGone(v, env, i).job.checkpoint; c == v.job.checkpoint || c == TempCleanup
  {
    hide Allowed;
  }

  lemma RegistrationMoves(v: View, env: Env, i: Input)
    requires v.run.pc.Persist? || v.run.pc == Gone || v.run.pc.Up? || v.run.pc == Reaped || v.run.pc == Enter(IpVerified)
    ensures var c := Work(v, env, i).job.checkpoint;
            c == v.job.checkpoint || c == Next(StageOf(v.run.pc)) || (v.run.pc == Gone && c == TempCleanup)
  {
    hide AtPersist, AtGone, AtUp, AtReaped, AtIpVerified;
    match v.run.pc {
      case Persist(_, _, _) => PersistTarget(v, env, i);
      case Gone => GoneTarget(v, env, i);
      case Up(_) => UpTarget(v, env, i);
      case Reaped => ReapedTarget(v, env, i);
      case _ => IpVerifiedTarget(v, env, i);
    }
  }

  lemma ClosingMoves(v: View, env: Env, i: Input)
    requires v.run.pc.Deploy? || v.run.pc == OldDone || v.run.pc == DryDone
    ensures var c := Work(v, env, i).job.checkpoint;
            c == v.job.checkpoint || c == Next(StageOf(v.run.pc))
  {
    hide Work, AtDeploy, AtOldDone, AtDryDone;
    WorkAtPlace(v, env, i);
    if v.run.pc.Deploy? {
      DeployTarget(v, env, i);
    } else if v.run.pc == OldDone {
      OldDoneTarget(v, env, i);
    } else {
      DryDoneTarget(v, env, i);
    }
  }

  /** An active job moves along the graph. */
  lemma WorkMoves(v: View, env: Env, i: Input)
    requires Inv(v, env.clock) && v.job.active && Work(v, env, i).job.active
    ensures CanMove(v.job.checkpoint, Work(v, env, i).job.checkpoint)
  {
    hide Work, Next, Leads;
    WorkerInvariant.Opened(v, env.clock);
    if !Loud(v.run.pc) {
      QuietWork(v, env, i);
    } else if v.run.pc == Failing {
      FailingEnds(v, env.clock);
      FailingIs(v, env, i);
    } else if v.run.pc.Deploy? || v.run.pc == OldDone || v.run.pc == DryDone {
      ClosingMoves(v, env, i);
      NextIsAllowed(v.job.checkpoint);
    } else if v.run.pc.Persist? || v.run.pc == Gone || v.run.pc.Up? || v.run.pc == Reaped || v.run.pc == Enter(IpVerified) {
      RegistrationMoves(v, env, i);
      NextIsAllowed(v.job.checkpoint);
    } else {
      CallsAreOutward(v, env, i);
    }
  }

  lemma FailingIs(v: View, env: Env, i: Input)
    requires v.run.pc == Failing
    ensures Work(v, env, i) == AtFailing(v)
  {
    hide AtFailing;
  }

  lemma NextIsAllowed(c: Checkpoint)
    ensures CanMove(c, Next(c)) && CanMove(Provisioned, TempCleanup)
  {
  }

  lemma StepRemembers(v: View, env: Env, i: Input, a: string)
    requires Inv(v, env.clock) && Inv(Work(v, env, i), env.clock) && Live(v.job) && Work(v, env, i).job.active
    requires Remembers(v, a) && SameOrigin(v.job, Work(v, env, i).job)
    ensures Remembers(Work(v, env, i), a)
  {
    hide Work, FromSnapshot, TargetFor;
    if v.job.snapshot.None? {
      FirstSnapshot(v, env, i, a);
    }
  }

  lemma FirstSnapshot(v: View, env: Env, i: Input, a: string)
    requires Inv(v, env.clock) && Inv(Work(v, env, i), env.clock) && Live(v.job) && Work(v, env, i).job.active
    requires Remembers(v, a) && v.job.snapshot.None?
    ensures Remembers(Work(v, env, i), a)
  {
    hide Work, FromSnapshot, TargetFor, Next;
    var w := Work(v, env, i);
    if Rank(v.job.checkpoint) >= 8 {
      HasTarget(v, env.clock);
    }
    MasterUntilSwitch(v, env, i);
    if v.run.pc == Enter(NodeVerified) || v.run.pc == Preflight || v.run.pc.Shown? || v.run.pc == Tested {
      PreflightSaves(v, env, i, a);
    } else {
      WorkFlows(v, env, i);
      NothingSaved(v, env, i);
    }
  }

  lemma NothingSaved(v: View, env: Env, i: Input)
    requires Inv(v, env.clock) && Inv(Work(v, env, i), env.clock) && Live(v.job) && Work(v, env, i).job.active
    requires Rank(v.job.checkpoint) <= 7 && v.job.snapshot.None?
    requires v.run.pc != Enter(NodeVerified) && v.run.pc != Preflight && !v.run.pc.Shown? && v.run.pc != Tested
    ensures Work(v, env, i).job.snapshot.None?
  {
    hide Work, Rank;
    var w := Work(v, env, i);
    WorkerInvariant.Opened(v, env.clock);
    EarlyHasNoSnapshot(w, env.clock);
    if !InStage(v.run.pc) {
      OutOfStage(v, env, i);
    } else if v.run.pc.Deploy? {
      DeploySavesNothing(v, env, i);
    } else {
      WorkMoves(v, env, i);
      StaysEarly(v, env, i);
    }
  }

  lemma EarlyHasNoSnapshot(v: View, clock: nat)
    requires Inv(v, clock) && v.job.active
    ensures Rank(v.job.checkpoint) <= 6 ==> v.job.snapshot.None?
  {
    WorkerInvariant.Opened(v, clock);
    JobFacts(v, clock);
  }

  lemma OutOfStage(v: View, env: Env, i: Input)
    requires Inv(v, env.clock) && !InStage(v.run.pc) && v.job.active && Work(v, env, i).job.active
    ensures Work(v, env, i).job.snapshot == v.job.snapshot
  {
    hide Work;
    if v.run.pc == Failing {
      FailingEnds(v, env.clock);
      FailingIs(v, env, i);
    } else {
      LoopMovesNothing(v, env, i);
    }
  }

  /** Below NODE_VERIFIED a step stays there unless it closes a deployment. */
  lemma StaysEarly(v: View, env: Env, i: Input)
    requires Inv(v, env.clock) && v.job.active && Work(v, env, i).job.active && InStage(v.run.pc)
    requires CanMove(v.job.checkpoint, Work(v, env, i).job.checkpoint) && Rank(v.job.checkpoint) <= 7
    requires !v.run.pc.Deploy? && v.run.pc != Enter(NodeVerified) && v.run.pc != Preflight && !v.run.pc.Shown? && v.run.pc != Tested
    requires Inv(Work(v, env, i), env.clock)
    ensures Rank(Work(v, env, i).job.checkpoint) <= 6
  {
    hide Work;
    WorkerInvariant.Opened(v, env.clock);
    ActiveJobsAreOpen(Work(v, env, i), env.clock);
    if v.job.checkpoint == NodeVerified {
      PlacesBeforeSwitch(v, env.clock);
    } else if v.run.pc == Enter(Deploying) {
      DeployingMovesNothing(v, env, i);
    }
  }

  lemma CueRemembers(v: View, env: Env, s: Scene, a: string)
    requires OnTrack(v, env, s) && Remembers(v, a) && Credible(v, env, Cue(v, s))
    requires var w := Happen(v, env, Cue(v, s)); w.job.active
    ensures Remembers(Happen(v, env, Cue(v, s)), a)
  {
    hide Work, Plausible, Visible, FromSnapshot, Scripted, Cooperative, Scene.Fits, RegistryTouched, CloudTouched,
      MasterTouched;
    HappenIs(v, env, s);
    if v.run.pc != Idle {
      HappenKeeps(v, env, Cue(v, s));
      StepRemembers(v, env, Cue(v, s).i, a);
    }
  }

  // ---- The way to a stage ----

  /** The stage has not been entered. */
  predicate Ahead(v: View, g: Checkpoint) {
    Rank(v.job.checkpoint) < Rank(g) || (v.job.checkpoint == g && !InStage(v.run.pc))
  }

  /** A step inside a stage stays in it. */
  lemma FlowsStayInStage(pc: Pc, next: Pc)
    requires Flows(pc, next) && InStage(pc) && InStage(next)
    requires !next.Rollback? && !next.RollWrite? && !next.RollCheck?
    ensures StageOf(next) == StageOf(pc)
  {
    hide StageFlowsTo, StageOf;
    if pc.Enter? {
      if next == pc {
      } else {
        StageFlowsStay(pc.stage, next);
        EnterIs(pc);
      }
    } else {
      PlaceFlowsStay(pc, next);
    }
  }

  lemma EnterIs(pc: Pc)
    requires pc.Enter?
    ensures StageOf(pc) == pc.stage
  {
  }

  lemma StageFlowsStay(stage: Checkpoint, next: Pc)
    requires StageFlowsTo(stage, next) && InStage(next)
    ensures StageOf(next) == stage
  {
  }

  lemma PlaceFlowsStay(pc: Pc, next: Pc)
    requires Flows(pc, next) && InStage(pc) && InStage(next) && !pc.Enter?
    requires !next.Rollback? && !next.RollWrite? && !next.RollCheck?
    ensures StageOf(next) == StageOf(pc)
  {
    hide StageOf, FlowsTo;
    if next != pc {
      if EarlyPlace(pc) {
        EarlyFlowsStay(pc, next);
      } else if MasterPlace(pc) {
        MasterFlowsStay(pc, next);
      } else {
        LastFlowsStay(pc, next);
      }
    }
  }

  lemma EarlyFlowsStay(pc: Pc, next: Pc)
    requires EarlyPlace(pc) && FlowsTo(pc, next) && InStage(next)
    ensures StageOf(next) == StageOf(pc)
  {
  }

  lemma MasterFlowsStay(pc: Pc, next: Pc)
    requires MasterPlace(pc) && FlowsTo(pc, next) && InStage(next)
    requires !next.Rollback? && !next.RollWrite? && !next.RollCheck?
    ensures StageOf(next) == StageOf(pc)
  {
  }

  lemma LastFlowsStay(pc: Pc, next: Pc)
    requires InStage(pc) && !pc.Enter? && !EarlyPlace(pc) && !MasterPlace(pc) && FlowsTo(pc, next) && InStage(next)
    requires !next.Rollback?
    ensures StageOf(next) == StageOf(pc)
  {
  }

  lemma RankGrowsTo(c: Checkpoint, target: Checkpoint, g: Checkpoint)
    requires CanMove(c, target) && Rank(c) < Rank(g) && 5 <= Rank(g) <= 14 && !Terminal(target)
    ensures Rank(target) < Rank(g) || target == g
  {
  }

  /** The last advance of the job is still ahead. */
  lemma OnwardMeasure(v: View, w: View, env: Env, s: Scene)
    requires OnTrack(v, env, s) && Rank(v.job.checkpoint) <= 13 && Onward(v, w, env, s)
    ensures OnTrack(w, env, s) && 0 <= Measure(w) < Measure(v)
  {
    hide Scripted, Cooperative, Scene.Fits, Measure;
    WorkerInvariant.Opened(v, env.clock);
    JobFacts(v, env.clock);
  }

  lemma CueAhead(v: View, env: Env, s: Scene, g: Checkpoint)
    requires OnTrack(v, env, s) && Ahead(v, g) && 5 <= Rank(g) <= 14 && Credible(v, env, Cue(v, s))
    requires Onward(v, Happen(v, env, Cue(v, s)), env, s)
    ensures var w := Happen(v, env, Cue(v, s));
            OnTrack(w, env, s) && 0 <= Measure(w) < Measure(v) && (Ahead(w, g) || w.run.pc == Enter(g))
  {
    hide Work, Plausible, Visible, OnTrack, Onward, Measure, CanMove;
    HappenIs(v, env, s);
    OnTrackPlace(v, env, s);
    if v.run.pc == Idle {
      OutOfStageOnward(v, Acquire(v), env, s);
    } else if v.run.pc == LoopTop {
      LoopEnters(v, env, s);
      OutOfStageOnward(v, Work(v, env, Ok), env, s);
    } else {
      OnwardMeasure(v, Work(v, env, Cue(v, s).i), env, s);
      WorkAhead(v, env, s, Cue(v, s).i, g);
    }
  }

  lemma OutOfStageOnward(v: View, w: View, env: Env, s: Scene)
    requires OnTrack(v, env, s) && Onward(v, w, env, s) && w.job == v.job
    ensures OnTrack(w, env, s) && 0 <= Measure(w) < Measure(v)
  {
    hide OnTrack;
    OnTrackPlace(v, env, s);
  }

  lemma LoopEnters(v: View, env: Env, s: Scene)
    requires v.run.pc == LoopTop && !Terminal(v.job.checkpoint)
    ensures Cue(v, s) == Do(Ok)
    ensures var w := Work(v, env, Ok); w.job == v.job && (w.run.pc == Idle || w.run.pc == Enter(v.job.checkpoint))
  {
  }

  lemma WorkAhead(v: View, env: Env, s: Scene, i: Input, g: Checkpoint)
    requires OnTrack(v, env, s) && Ahead(v, g) && 5 <= Rank(g) <= 14 && InStage(v.run.pc)
    requires OnTrack(Work(v, env, i), env, s)
    ensures Ahead(Work(v, env, i), g)
  {
    hide Work, OnTrack, CanMove, Flows;
    var w := Work(v, env, i);
    OnTrackPlace(v, env, s);
    OnTrackPlace(w, env, s);
    WorkMoves(v, env, i);
    RankGrowsTo(v.job.checkpoint, w.job.checkpoint, g);
    WorkFlows(v, env, i);
    if InStage(w.run.pc) {
      FlowsStayInStage(v.run.pc, w.run.pc);
    }
  }

  /** Runs one after the other. */
  lemma {:induction false} Joined(v: View, env: Env, first: seq<Act>, rest: seq<Act>)
    requires CredibleRun(v, env, first) && CredibleRun(Play(v, env, first), env, rest)
    ensures CredibleRun(v, env, first + rest) && Play(v, env, first + rest) == Play(Play(v, env, first), env, rest)
  {
    hide Happen, Credible, CredibleRun, Play;
    var u := Play(v, env, first);
    if rest == [] {
      assert first + rest == first;
      Start(u, env);
    } else {
      var front, a := rest[..|rest| - 1], rest[|rest| - 1];
      Shortened(u, env, rest);
      Joined(v, env, first, front);
      Further(v, env, first + front, a);
      assert first + rest == (first + front) + [a];
    }
  }

  lemma Shortened(v: View, env: Env, acts: seq<Act>)
    requires CredibleRun(v, env, acts) && acts != []
    ensures var front := acts[..|acts| - 1];
            && CredibleRun(v, env, front) && Credible(Play(v, env, front), env, acts[|acts| - 1])
            && Play(v, env, acts) == Happen(Play(v, env, front), env, acts[|acts| - 1])
  {
    hide Happen, Credible;
    var front := acts[..|acts| - 1];
    forall n | 0 <= n < |front| ensures Credible(Play(v, env, front[..n]), env, front[n]) {
      assert front[..n] == acts[..n];
    }
  }

  /** What a run keeps of the address the job found and of the one it goes to. */
  predicate Keeps(v: View, w: View, s: Scene, a: string) {
    && w.id == v.id && SameOrigin(v.job, w.job)
    && (Remembers(v, a) ==> Remembers(w, a)) && (Addressed(v, s) ==> Addressed(w, s))
    && (SameWorld(v, v.job.oldVps) ==> SameWorld(w, w.job.oldVps))
  }

  lemma CueKeeps(v: View, env: Env, s: Scene, a: string)
    requires OnTrack(v, env, s) && Credible(v, env, Cue(v, s)) && Happen(v, env, Cue(v, s)).job.active
    ensures Keeps(v, Happen(v, env, Cue(v, s)), s, a)
  {
    hide OnTrack, Happen, Credible, Remembers, Addressed, RegistryTouched, MasterTouched;
    OnTrackInv(v, env, s);
    HappenKeeps(v, env, Cue(v, s));
    if Remembers(v, a) {
      CueRemembers(v, env, s, a);
    }
    if Addressed(v, s) {
      CueAddressed(v, env, s);
    }
  }

  lemma KeepsOn(u: View, v: View, w: View, s: Scene, a: string)
    requires Keeps(u, v, s, a) && Keeps(v, w, s, a)
    ensures Keeps(u, w, s, a)
  {
    hide Remembers, Addressed;
  }

  lemma KeepsSelf(v: View, s: Scene, a: string)
    ensures Keeps(v, v, s, a)
  {
    hide Remembers, Addressed;
  }

  /** A cooperating world brings a job into every stage from the verified address on. */
  lemma {:induction false} StageIsReached(v: View, env: Env, s: Scene, g: Checkpoint, a: string) returns (acts: seq<Act>)
    requires OnTrack(v, env, s) && Coupled(v) && !s.oneLease && Ahead(v, g) && 5 <= Rank(g) <= 14
    ensures CredibleRun(v, env, acts)
    ensures var w := Play(v, env, acts);
            OnTrack(w, env, s) && Coupled(w) && w.run.pc == Enter(g) && Keeps(v, w, s, a)
    decreases Measure(v)
  {
    hide OnTrack, Happen, Credible, Coupled, Ahead, Onward, Measure, Keeps, Play, CredibleRun;
    CueOnward(v, env, s);
    var w := Happen(v, env, Cue(v, s));
    CueAhead(v, env, s, g);
    OnTrackInv(w, env, s);
    CueKeeps(v, env, s, a);
    Start(w, env);
    var rest := [];
    if w.run.pc == Enter(g) {
      KeepsSelf(w, s, a);
    } else {
      rest := StageIsReached(w, env, s, g, a);
    }
    Before(v, env, Cue(v, s), rest);
    KeepsOn(v, w, Play(w, env, rest), s, a);
    acts := [Cue(v, s)] + rest;
  }

  /** One more step of such a run, unless it ends the job. */
  lemma OneMore(u: View, env: Env, s: Scene, acts: seq<Act>, a: string) returns (longer: seq<Act>)
    requires CredibleRun(u, env, acts)
    requires var v := Play(u, env, acts);
             OnTrack(v, env, s) && Coupled(v) && !s.oneLease && Keeps(u, v, s, a) && Happen(v, env, Cue(v, s)).job.active
    ensures CredibleRun(u, env, longer)
    ensures var v, w := Play(u, env, acts), Play(u, env, longer);
            w == Happen(v, env, Cue(v, s)) && OnTrack(w, env, s) && Coupled(w) && Keeps(u, w, s, a)
  {
    hide OnTrack, Happen, Credible, Coupled, Onward, Keeps, Play, CredibleRun;
    var v := Play(u, env, acts);
    CueOnward(v, env, s);
    var w := Happen(v, env, Cue(v, s));
    ActiveIsOnTrack(v, env, s);
    CueKeeps(v, env, s, a);
    KeepsOn(u, v, w, s, a);
    Further(u, env, acts, Cue(v, s));
    longer := acts + [Cue(v, s)];
  }

  lemma ActiveIsOnTrack(v: View, env: Env, s: Scene)
    requires OnTrack(v, env, s) && Credible(v, env, Cue(v, s)) && Onward(v, Happen(v, env, Cue(v, s)), env, s)
    requires Happen(v, env, Cue(v, s)).job.active
    ensures OnTrack(Happen(v, env, Cue(v, s)), env, s)
  {
    hide OnTrack, Happen, Credible, Touches;
    OnTrackInv(v, env, s);
    HappenKeeps(v, env, Cue(v, s));
    ActiveJobsAreOpen(Happen(v, env, Cue(v, s)), env.clock);
  }

  // ---- From the start ----

  /** A live job as it is admitted, in a cooperating world and with a plain Master record. */
  ghost predicate FreshStart(v: View, env: Env, s: Scene) {
    && Inv(v, env.clock) && Coupled(v) && Live(v.job) && v.job.checkpoint == Created && v.job.advances == 0
    && v.run == Run(Idle, 0, v.run.at) && Cooperative(v, env) && s.Fits() && !s.oneLease
    && !v.master.transitive && v.master.tlsVerifyMode != "mtls" && !v.master.hasApiToken
    && v.master.status == "" && v.master.xrayState == ""
  }

  lemma FreshIsAhead(v: View, env: Env, s: Scene, g: Checkpoint)
    requires FreshStart(v, env, s) && 5 <= Rank(g) <= 14
    ensures OnTrack(v, env, s) && Coupled(v) && Ahead(v, g) && !s.oneLease && Remembers(v, v.master.address) && Addressed(v, s)
  {
    hide OnTrack, Coupled;
    FreshIsOnTrack(v, env, s);
    EarlyHasNoSnapshot(v, env.clock);
  }

  /** The worker of a fresh job enters a stage. */
  lemma FreshReaches(v: View, env: Env, s: Scene, g: Checkpoint) returns (acts: seq<Act>)
    requires FreshStart(v, env, s) && 5 <= Rank(g) <= 14
    ensures CredibleRun(v, env, acts)
    ensures var w := Play(v, env, acts);
            && OnTrack(w, env, s) && Coupled(w) && !s.oneLease && w.run.pc == Enter(g) && Keeps(v, w, s, v.master.address)
            && Remembers(v, v.master.address) && Addressed(v, s)
  {
    hide OnTrack, Coupled, FreshStart, Play, CredibleRun, Remembers, Addressed, Ahead;
    FreshIsAhead(v, env, s, g);
    acts := StageIsReached(v, env, s, g, v.master.address);
  }

  lemma FinalIsEntered(v: View, env: Env, s: Scene)
    requires OnTrack(v, env, s) && v.run.pc == Enter(FinalCheck)
    ensures Happen(v, env, Cue(v, s)) == Go(v, Final) && v.job.active
  {
    hide Verifies, TargetFor, AtProvisioning, AtOldVpsCleanup, AtNodeVerified;
    WorkerInvariant.Opened(v, env.clock);
    DeploymentFacts(v, env.clock);
    WorkAtStage(v, env, Ok);
  }

  lemma SnapshotIsThere(v: View, env: Env, s: Scene)
    requires OnTrack(v, env, s) && v.run.pc == Final
    ensures v.job.snapshot.Some?
  {
    hide TargetFor, Scripted;
    OnTrackPlace(v, env, s);
    HasTarget(v, env.clock);
  }

  /**
   A freshly admitted live job can complete, its old server deleted and its node moved to the new
   one, with the Master back on the address it had when the job was admitted.
   */
  lemma RollbackFromTheStart(v: View, env: Env, s: Scene) returns (acts: seq<Act>)
    requires FreshStart(v, env, s) && s.address != v.master.address
    ensures CredibleRun(v, env, acts)
    ensures var w := Play(v, env, acts);
            w.job.checkpoint == Completed && w.node.host == s.address && w.master.address == v.master.address != w.node.host
  {
    hide OnTrack, Coupled, FreshStart, Play, Happen, CredibleRun, Addressed;
    acts := FreshReaches(v, env, s, FinalCheck);
    FinalIsEntered(Play(v, env, acts), env, s);
    acts := OneMore(v, env, s, acts, v.master.address);
    var u := Play(v, env, acts);
    SnapshotIsThere(u, env, s);
    var rest := RollbackCanSurvive(u, env, s);
    Joined(v, env, acts, rest);
    acts := acts + rest;
  }

  lemma PinIsAsked(v: View, env: Env, s: Scene)
    requires OnTrack(v, env, s) && v.run.pc == Enter(MasterUpdating)
    ensures var w := Happen(v, env, Cue(v, s)); w.job == v.job && v.job.active && w.run.pc.SwitchPin?
  {
    hide Verifies, TargetFor, AtProvisioning, AtOldVpsCleanup, AtNodeVerified;
    WorkerInvariant.Opened(v, env.clock);
    DeploymentFacts(v, env.clock);
    WorkAtStage(v, env, Ok);
  }

  lemma SwitchIsNext(v: View, env: Env, s: Scene)
    requires v.run.pc.SwitchPin?
    ensures var w := Happen(v, env, Cue(v, s)); w.job == v.job && w.run.pc.Switch?
  {
    hide Pinned;
    SwitchPinMoves(v, env, s);
  }

  lemma TargetIsAddressed(v: View, env: Env, s: Scene)
    requires OnTrack(v, env, s) && Addressed(v, s) && v.run.pc.Switch?
    ensures v.job.active && TargetOf(v).Some? && TargetOf(v).value.address == s.address
  {
    hide Scripted, Cooperative, Scene.Fits;
    OnTrackPlace(v, env, s);
    HasTarget(v, env.clock);
    TargetHasHost(v);
  }

  lemma OnTargetAddress(n: MasterNode, t: Mutation)
    requires OnTarget(n, t)
    ensures n.address == t.address
  {
  }

  /**
   A freshly admitted live job can end CANCELLED, its node given back, with the Master on the new server.
   */
  lemma SwitchedCancelFromTheStart(v: View, env: Env, s: Scene) returns (acts: seq<Act>)
    requires FreshStart(v, env, s)
    ensures CredibleRun(v, env, acts)
    ensures var w := Play(v, env, acts);
            w.job.checkpoint == Cancelled && w.node.state == v.job.found.state && w.master.address == s.address
  {
    hide OnTrack, Coupled, FreshStart, Play, Happen, CredibleRun, Addressed, Remembers, OnTarget;
    acts := FreshReaches(v, env, s, MasterUpdating);
    PinIsAsked(Play(v, env, acts), env, s);
    acts := OneMore(v, env, s, acts, v.master.address);
    SwitchIsNext(Play(v, env, acts), env, s);
    acts := OneMore(v, env, s, acts, v.master.address);
    var u := Play(v, env, acts);
    OnTrackInv(u, env, s);
    TargetIsAddressed(u, env, s);
    var rest := CancelMissesLandedSwitch(u, env);
    OnTargetAddress(Play(u, env, rest).master, TargetOf(u).value);
    Joined(v, env, acts, rest);
    acts := acts + rest;
  }

  lemma DeployIsEntered(v: View, env: Env, s: Scene)
    requires OnTrack(v, env, s) && v.run.pc == Enter(Deploying)
    ensures var w := Happen(v, env, Cue(v, s)); w.job == v.job && v.job.active && w.run.pc.Deploy?
  {
    hide Verifies, TargetFor, AtProvisioning, AtOldVpsCleanup, AtNodeVerified;
    WorkerInvariant.Opened(v, env.clock);
    DeploymentFacts(v, env.clock);
    WorkAtStage(v, env, Ok);
  }

  lemma DeployGoesOn(v: View, env: Env, s: Scene)
    requires OnTrack(v, env, s) && v.run.pc.Deploy? && !ClosingDeployment(v)
    ensures var w := Happen(v, env, Cue(v, s));
            w.job == v.job && v.job.active && w.run.pc.Deploy? && 0 <= Left(w) < Left(v)
  {
    hide Verifies, TargetFor;
    HappenIs(v, env, s);
    OnTrackPlace(v, env, s);
    DeploymentFacts(v, env.clock);
    DeployIs(v, env, Ok);
  }

  /** The deployment comes to its closing commit. */
  lemma {:induction false} ClosingIsReached(v: View, env: Env, s: Scene, acts: seq<Act>, a: string) returns (longer: seq<Act>)
    requires CredibleRun(v, env, acts) && !s.oneLease
    requires var u := Play(v, env, acts); OnTrack(u, env, s) && Coupled(u) && Keeps(v, u, s, a) && u.run.pc.Deploy?
    ensures CredibleRun(v, env, longer)
    ensures var w := Play(v, env, longer); OnTrack(w, env, s) && Coupled(w) && Keeps(v, w, s, a) && ClosingDeployment(w)
    decreases Left(Play(v, env, acts))
  {
    hide OnTrack, Coupled, Play, Happen, CredibleRun, Keeps, Left, ClosingDeployment;
    if ClosingDeployment(Play(v, env, acts)) {
      longer := acts;
    } else {
      DeployGoesOn(Play(v, env, acts), env, s);
      longer := OneMore(v, env, s, acts, a);
      longer := ClosingIsReached(v, env, s, longer, a);
    }
  }

  /**
   A freshly admitted live job can lose its cancel to the closing commit, and its worker after that:
   its node stays in VERIFYING, the job is inactive at NODE_VERIFIED, and nobody takes it up again.
   */
  lemma OverwrittenCancelFromTheStart(v: View, env: Env, s: Scene) returns (acts: seq<Act>)
    requires FreshStart(v, env, s)
    ensures CredibleRun(v, env, acts)
    ensures var w := Play(v, env, acts);
            w.job.checkpoint == NodeVerified && !w.job.active && w.node.state == Verifying && w.run.pc == Idle && Acquire(w) == w
  {
    hide OnTrack, Coupled, FreshStart, Play, Happen, CredibleRun, Credible, Keeps, ClosingDeployment;
    acts := FreshReaches(v, env, s, Deploying);
    DeployIsEntered(Play(v, env, acts), env, s);
    acts := OneMore(v, env, s, acts, v.master.address);
    acts := ClosingIsReached(v, env, s, acts, v.master.address);
    var u := Play(v, env, acts);
    OnTrackInv(u, env, s);
    LateCancelIsOverwritten(u, env, s.panel);
    LateCancelIsCredible(u, env, s.panel);
    Further(v, env, acts, Cancelling);
    acts := acts + [Cancelling];
    Further(v, env, acts, Do(Installed(s.panel)));
    acts := acts + [Do(Installed(s.panel))];
    StrayDies(Play(v, env, acts), env);
    Further(v, env, acts, Dying);
    acts := acts + [Dying];
  }

  lemma LateCancelIsCredible(v: View, env: Env, c: PanelConfig)
    requires ClosingDeployment(v)
    ensures Credible(v, env, Cancelling) && Credible(Happen(v, env, Cancelling), env, Do(Installed(c)))
  {
    CancelKeepsPlace(v, env);
  }

  lemma CancelKeepsPlace(v: View, env: Env)
    ensures Happen(v, env, Cancelling).run == v.run
  {
    hide NodeAfterFailure;
  }

  lemma StrayDies(v: View, env: Env)
    requires Stray(v.job)
    ensures Credible(v, env, Dying)
    ensures var w := Happen(v, env, Dying); w == Leave(v) && Acquire(w) == w && !w.job.active
  {
  }

  lemma OldIsLookedAt(v: View, env: Env, s: Scene)
    requires OnTrack(v, env, s) && v.run.pc == Enter(OldVpsCleanup)
    ensures var w := Happen(v, env, Cue(v, s)); w.job == v.job && v.job.active && w.run.pc.OldGet?
  {
    hide Verifies, TargetFor, GuardPermits, AtProvisioning, AtNodeVerified;
    OnTrackPlace(v, env, s);
    DeploymentFacts(v, env.clock);
    GuardNeverDenies(v, env.clock);
    WorkAtStage(v, env, Ok);
  }

  lemma OldIsShown(v: View, env: Env, s: Scene)
    requires OnTrack(v, env, s) && v.run.pc.OldGet? && SameWorld(v, v.job.oldVps)
    ensures var w := Happen(v, env, Cue(v, s)); w.job == v.job && v.job.active && w.run.pc.OldDelete?
  {
    hide Verifies, TargetFor, Scripted;
    WorkerInvariant.Opened(v, env.clock);
    OldGetMoves(v, env, s);
  }

  /** The delete call lands and ends in a hard error, which the worker records. */
  lemma BrokenDeletion(v: View, env: Env)
    requires v.run.pc.OldDelete?
    ensures Credible(v, env, Do(Broken(true))) && Happen(v, env, Do(Broken(true))) == AtOldDelete(v, env, Broken(true))
    ensures var w := AtOldDelete(v, env, Broken(true));
            Credible(w, env, Do(Ok)) && Happen(w, env, Do(Ok)) == AtFailing(w)
  {
    hide AtFailing, Killed;
  }

  /** A freshly admitted live job can be recorded FAILED, its node too, although its old server is gone. */
  lemma FailedDeletionFromTheStart(v: View, env: Env, s: Scene) returns (acts: seq<Act>)
    requires FreshStart(v, env, s) && SameWorld(v, v.job.oldVps)
    ensures CredibleRun(v, env, acts)
    ensures var w := Play(v, env, acts);
            && w.job.checkpoint == Failed && w.node.state == NodeFailed
            && v.job.oldVps in w.servers && !w.servers[v.job.oldVps].alive
  {
    hide OnTrack, Coupled, FreshStart, Play, Happen, CredibleRun, Credible, Remembers, Addressed;
    acts := FreshReaches(v, env, s, OldVpsCleanup);
    OldIsLookedAt(Play(v, env, acts), env, s);
    acts := OneMore(v, env, s, acts, v.master.address);
    OldIsShown(Play(v, env, acts), env, s);
    acts := OneMore(v, env, s, acts, v.master.address);
    var u := Play(v, env, acts);
    OnTrackInv(u, env, s);
    Completion.HardErrorLosesBoth(u, env);
    BrokenDeletion(u, env);
    Further(v, env, acts, Do(Broken(true)));
    acts := acts + [Do(Broken(true))];
    Further(v, env, acts, Do(Ok));
    acts := acts + [Do(Ok)];
  }
}
