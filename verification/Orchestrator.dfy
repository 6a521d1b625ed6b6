/** The orchestrator's own operations over the stored rows: trigger, cancel, and giving a node back. */
module Orchestrator {
  import opened Types
  import opened CheckpointGraph
  import opened NodeLifecycle
  import opened Worker
  import opened WorkerInvariant
  import opened Fleet
  import opened FleetInvariant

  /** What a request and the stored rows must show for a new job. */
  ghost predicate Admissible(f: State, r: Request) {
    && (r.key.Some? ==> 8 <= |r.key.value| <= 64 && forall j :: j in f.jobs ==> f.jobs[j].job.requestKey != r.key)
    && r.admitted && r.providerActive && |Active(f)| < f.cfg.maxConcurrent
    && r.node in f.nodes && (forall j :: j in f.jobs && f.jobs[j].job.node == r.node ==> !f.jobs[j].job.active)
    && (if r.force then f.nodes[r.node].row.state in {Unknown, Healthy, Degraded, NodeFailed}
        else f.nodes[r.node].row.state == NodeFailed)
    && (exists k :: k in f.vps && f.vps[k].node == r.node && f.vps[k].role == Current && f.vps[k].state != VpsDeleted)
  }

  /**
   A request that is answered with a job there already is: the one of its key, or the active one of its node.
   */
  ghost predicate Answered(f: State, r: Request, j: JobId) {
    && (r.key.Some? ==> 8 <= |r.key.value| <= 64) && r.admitted && j in f.jobs
    && if r.key.Some? && exists i :: i in f.jobs && f.jobs[i].job.requestKey == r.key then f.jobs[j].job.requestKey == r.key
       else r.node in f.nodes && f.jobs[j].job.active && f.jobs[j].job.node == r.node
  }

  /** The replies of a trigger, each exactly when its condition holds. */
  lemma RepliesAreExact(f: State, r: Request, j: JobId)
    requires Orderly(f)
    ensures Answer(f, r) == Admitted <==> Admissible(f, r)
    ensures Answer(f, r) == Existing(j) <==> Answered(f, r, j)
  {
    HeldAndUniqueJobs(f);
    hide Orderly;
    KnownAndBusy(f, r);
    AdmittedIsAdmissible(f, r);
    ExistingIsAnswered(f, r, j);
  }

  lemma KnownAndBusy(f: State, r: Request)
    ensures r.key.Some? ==> (Known(f, r.key.value) <==> exists i :: i in f.jobs && f.jobs[i].job.requestKey == r.key)
    ensures Busy(f, r.node) <==> exists i :: i in f.jobs && f.jobs[i].job.active && f.jobs[i].job.node == r.node
    ensures HasCurrent(f, r.node) <==>
            exists k :: k in f.vps && f.vps[k].node == r.node && f.vps[k].role == Current && f.vps[k].state != VpsDeleted
  {
    assert forall k :: k in f.vps ==>
        (IsCurrent(f.vps[k], r.node) <==> f.vps[k].node == r.node && f.vps[k].role == Current && f.vps[k].state != VpsDeleted);
  }

  lemma AdmittedIsAdmissible(f: State, r: Request)
    ensures Answer(f, r) == Admitted <==> Admissible(f, r)
  {
    KnownAndBusy(f, r);
    hide Known, Busy, HasCurrent;
  }

  lemma ExistingIsAnswered(f: State, r: Request, j: JobId)
    requires OneActivePerNode(f) && KeysUnique(f)
    ensures Answer(f, r) == Existing(j) <==> Answered(f, r, j)
  {
    KnownAndBusy(f, r);
    ReplayIsOne(f, r, j);
    ActiveIsOne(f, r, j);
    hide Known, Busy, HasCurrent;
  }

  lemma ReplayIsOne(f: State, r: Request, j: JobId)
    requires KeysUnique(f)
    ensures r.key.Some? && j in f.jobs && f.jobs[j].job.requestKey == r.key ==>
              forall i :: i in f.jobs && f.jobs[i].job.requestKey == r.key ==> i == j
  {
  }

  lemma ActiveIsOne(f: State, r: Request, j: JobId)
    requires OneActivePerNode(f)
    ensures j in f.jobs && f.jobs[j].job.active && f.jobs[j].job.node == r.node ==>
              forall i :: i in f.jobs && f.jobs[i].job.active && f.jobs[i].job.node == r.node ==> i == j
  {
    forall i | i in f.jobs && f.jobs[i].job.active && f.jobs[i].job.node == r.node
               && j in f.jobs && f.jobs[j].job.active && f.jobs[j].job.node == r.node
      ensures i == j
    {
      assert ActiveOn(f, i, r.node) && ActiveOn(f, j, r.node);
    }
  }

  /** A job as a request brings it about: nothing done, nothing verified, the node as it was found. */
  predicate Begun(j: Job, r: Request, node: NodeRow, attempts: nat, current: ServerId) {
    && j.node == r.node && j.checkpoint == Created && j.active && j.dryRun == r.dryRun && j.force == r.force
    && j.original == (if r.force then Some(node.state) else None) && j.requestKey == r.key
    && j.attempt == 0 && j.maxAttempts == attempts && j.oldVps == current && j.newVps.None? && j.requestedAt.None?
    && j.snapshot.None? && !j.ipVerified && !j.deploymentVerified && !j.masterUpdated && !j.masterVerified
    && !j.finalVerified && !j.oldDeleted
    && j.found == Found(node.state, node.failures, node.successes)
  }

  /**
   A trigger adds a job exactly when it is admissible; the job is new, its node in REPLACING unless it is a
   dry run, and nothing else changes.
   */
  lemma AdmissionIsExact(f: State, r: Request, id: JobId, current: ServerId)
    requires Orderly(f) && Possible(f, Event.Trigger(r, id, current))
    ensures var g := After(f, Event.Trigger(r, id, current));
            && (g != f <==> Admissible(f, r)) && (id in g.jobs <==> Admissible(f, r))
            && (Admissible(f, r) ==>
                  && Begun(g.jobs[id].job, r, f.nodes[r.node].row, f.cfg.maxAttempts, current)
                  && g.jobs[id].run.pc == Idle && g.jobs[id].deployment.None? && IsCurrent(f.vps[current], r.node)
                  && g == f.(jobs := f.jobs[id := g.jobs[id]], nodes := f.nodes[r.node := g.nodes[r.node]])
                  && var n := f.nodes[r.node];
                     g.nodes[r.node] == if r.dryRun then n else n.(row := n.row.(state := Replacing)))
  {
    hide Orderly, Answer;
    AdmittedIsAdmissible(f, r);
    AfterTrigger(f, r, id, current);
  }

  datatype CancelReply = CancelDone | AlreadyOver | NoSuchJob | TooLate

  class ReplacementOrchestrator {
    var state: State

    ghost predicate Valid()
      reads this
    {
      Orderly(state)
    }

    constructor (state: State)
      requires Initial(state)
      ensures Valid() && this.state == state
    {
      this.state := state;
      new;
      InitialOrderly(state);
    }

    /**
     Creates one job, or answers with the one that the request key or the node already has. The
     whole check runs under the admission lock.
     */
    method Trigger(r: Request, id: JobId) returns (reply: Reply, current: ServerId)
      requires Valid() && id !in state.jobs
      modifies this
      ensures Valid() && Possible(old(state), Event.Trigger(r, id, current))
      ensures reply == Answer(old(state), r)
      ensures reply == Admitted <==> Admissible(old(state), r)
      ensures reply.Existing? ==> Answered(old(state), r, reply.job)
      ensures state == After(old(state), Event.Trigger(r, id, current))
    {
      hide Orderly, After, Admissible, Answered;
      RepliesAreExact(state, r, if Answer(state, r).Existing? then Answer(state, r).job else 0);
      current := 0;
      var rows := CurrentRows(state, r.node);
      if rows != {} {
        current :| current in rows;
      }
      QueriesAnswer(state, r);
      TriggerOrderly(state, r, id, current);
      AfterTrigger(state, r, id, current);
      if !KeyFits(r.key) || !r.admitted {
        return Refused, current;
      }
      if r.key.Some? {
        var replays := Replays(state, r.key);
        if replays != {} {
          var j :| j in replays;
          return Existing(j), current;
        }
      }
      if r.node !in state.nodes {
        return Refused, current;
      }
      var busy := ActiveJobs(state, r.node);
      if busy != {} {
        var j :| j in busy;
        return Existing(j), current;
      }
      var node := state.nodes[r.node];
      var row := node.row;
      if r.force {
        if row.state == Disabled || row.state in {Replacing, NodeDeploying, Verifying} {
          return Refused, current;
        }
      } else if row.state != NodeFailed {
        return Refused, current;
      }
      if |Active(state)| >= state.cfg.maxConcurrent || rows == {} || !r.providerActive {
        return Refused, current;
      }
      var job := FreshJob(r, row, state.cfg.maxAttempts, current);
      if !r.dryRun {
        row := row.(state := Replacing);
      }
      state := state.(jobs := state.jobs[id := Slot(job, Run(Idle, 0, Protect(job)), None)],
                      nodes := state.nodes[r.node := node.(row := row)]);
      reply := Admitted;
    }

    /** Cancels a job unless a Master switch has been recorded. */
    method CancelJob(id: JobId) returns (reply: CancelReply)
      requires Valid()
      modifies this
      ensures Valid() && state == After(old(state), Stop(id))
      ensures reply == NoSuchJob <==> id !in old(state).jobs
      ensures reply == AlreadyOver <==> id in old(state).jobs && Terminal(old(state).jobs[id].job.checkpoint)
      ensures reply == CancelDone <==> id in old(state).jobs && !Terminal(old(state).jobs[id].job.checkpoint) && !old(state).jobs[id].job.masterUpdated
      ensures reply == CancelDone ==> id in state.jobs && state.jobs[id].job.checkpoint == Cancelled && !state.jobs[id].job.active
      ensures reply != CancelDone ==> state == old(state)
    {
      hide Orderly, Ended;
      JobEventOrderly(state, Stop(id));
      if id !in state.jobs {
        return NoSuchJob;
      }
      OneJob(state, id);
      var view := ViewOf(state, id);
      CancelFacts(view, state.clock);
      if Terminal(view.job.checkpoint) {
        assert Put(state, view) == state;
        return AlreadyOver;
      }
      if view.job.masterUpdated {
        assert Put(state, view) == state;
        return TooLate;
      }
      var job := view.job.(checkpoint := Cancelled, active := false);
      var node := view.node;
      if !job.dryRun && node.state in {Replacing, NodeDeploying, Verifying} {
        node := node.(state := if job.force && job.original.Some? then job.original.value else NodeFailed);
      }
      state := Put(state, view.(job := job, node := node));
      return CancelDone;
    }
  }

  /** Puts the node of an unsuccessful job back, or in FAILED; a node outside the workflow is left alone. */
  method RestoreNodeAfterUnsuccessfulJob(node: Node, job: Job, now: nat) returns (r: Result<bool>)
    modifies node
    ensures r.Success? <==> NodeAfterFailure(old(node.row), job).Success?
    ensures r.Success? ==> node.row == NodeAfterFailure(old(node.row), job).value
    ensures r.Failure? ==> node.row == old(node.row)
  {
    if node.row.state !in {Replacing, NodeDeploying, Verifying} {
      return Success(false);
    }
    if job.force && !job.masterUpdated && job.original.Some? {
      r := node.RestoreAfterForcedReplacement(job.original.value, now);
      return;
    }
    r := node.Transition(NodeFailed, now);
  }

  lemma CancelFacts(v: View, clock: nat)
    requires Inv(v, clock)
    ensures !Terminal(v.job.checkpoint) && !v.job.masterUpdated ==>
              var node := if !v.job.dryRun && v.node.state in {Replacing, NodeDeploying, Verifying}
                          then v.node.(state := if v.job.force && v.job.original.Some? then v.job.original.value else NodeFailed)
                          else v.node;
              Cancel(v) == v.(job := v.job.(checkpoint := Cancelled, active := false), node := node)
    ensures Terminal(v.job.checkpoint) || v.job.masterUpdated ==> Cancel(v) == v
  {
    hide Ended;
    WorkerInvariant.Opened(v, clock);
    if !Terminal(v.job.checkpoint) {
      EndingIsNeverRefused(v, Cancelled, clock);
    }
  }

  function CurrentRows(f: State, n: NodeId): set<ServerId> {
    set k | k in f.vps && IsCurrent(f.vps[k], n)
  }

  function Replays(f: State, key: Option<string>): set<JobId> {
    set j | j in f.jobs && f.jobs[j].job.requestKey == key
  }

  function ActiveJobs(f: State, n: NodeId): set<JobId> {
    set j | j in f.jobs && f.jobs[j].job.active && f.jobs[j].job.node == n
  }

  /** What the queries find is what the admission conditions say, and each finds at most one job. */
  lemma QueriesAnswer(f: State, r: Request)
    requires Orderly(f)
    ensures HasCurrent(f, r.node) <==> CurrentRows(f, r.node) != {}
    ensures r.key.Some? ==> (Known(f, r.key.value) <==> Replays(f, r.key) != {})
    ensures r.key.Some? ==> forall i, j :: i in Replays(f, r.key) && j in Replays(f, r.key) ==> i == j
    ensures KeyFits(r.key) && r.admitted && r.key.Some? && Known(f, r.key.value) ==>
              Answer(f, r).Existing? && Answer(f, r).job in Replays(f, r.key)
    ensures Busy(f, r.node) <==> ActiveJobs(f, r.node) != {}
    ensures forall i, j :: i in ActiveJobs(f, r.node) && j in ActiveJobs(f, r.node) ==> i == j
    ensures KeyFits(r.key) && r.admitted && (r.key.Some? ==> !Known(f, r.key.value)) && r.node in f.nodes && Busy(f, r.node) ==>
              Answer(f, r).Existing? && Answer(f, r).job in ActiveJobs(f, r.node)
  {
    HeldAndUniqueJobs(f);
    hide Orderly;
    CurrentRowsAnswer(f, r.node);
    if r.key.Some? {
      ReplaysAnswer(f, r);
    }
    ActiveJobsAnswer(f, r);
  }

  lemma CurrentRowsAnswer(f: State, n: NodeId)
    ensures HasCurrent(f, n) <==> CurrentRows(f, n) != {}
  {
    if HasCurrent(f, n) {
      var k :| k in f.vps && IsCurrent(f.vps[k], n);
      assert k in CurrentRows(f, n);
    }
  }

  lemma ReplaysAnswer(f: State, r: Request)
    requires KeysUnique(f) && r.key.Some?
    ensures Known(f, r.key.value) <==> Replays(f, r.key) != {}
    ensures forall i, j :: i in Replays(f, r.key) && j in Replays(f, r.key) ==> i == j
    ensures KeyFits(r.key) && r.admitted && Known(f, r.key.value) ==>
              Answer(f, r).Existing? && Answer(f, r).job in Replays(f, r.key)
  {
    if Known(f, r.key.value) {
      var j :| j in f.jobs && f.jobs[j].job.requestKey == Some(r.key.value);
      assert j in Replays(f, r.key);
    }
  }

  lemma ActiveJobsAnswer(f: State, r: Request)
    requires OneActivePerNode(f)
    ensures Busy(f, r.node) <==> ActiveJobs(f, r.node) != {}
    ensures forall i, j :: i in ActiveJobs(f, r.node) && j in ActiveJobs(f, r.node) ==> i == j
    ensures KeyFits(r.key) && r.admitted && (r.key.Some? ==> !Known(f, r.key.value)) && r.node in f.nodes && Busy(f, r.node) ==>
              Answer(f, r).Existing? && Answer(f, r).job in ActiveJobs(f, r.node)
  {
    var n := r.node;
    if Busy(f, n) {
      var j :| j in f.jobs && f.jobs[j].job.active && f.jobs[j].job.node == n;
      assert j in ActiveJobs(f, n);
    }
    forall i, j | i in ActiveJobs(f, n) && j in ActiveJobs(f, n) ensures i == j {
      assert ActiveOn(f, i, n) && ActiveOn(f, j, n);
    }
  }

  lemma AfterTrigger(f: State, r: Request, id: JobId, current: ServerId)
    ensures After(f, Event.Trigger(r, id, current)) == if Answer(f, r).Admitted? then Admit(f, r, id, current) else f
  {
  }

  lemma HeldAndUniqueJobs(f: State)
    requires Orderly(f)
    ensures OneActivePerNode(f) && KeysUnique(f)
  {
    hide JobsIn, NamesKnown, LogsKnown, RowsClaimed;
  }
}
