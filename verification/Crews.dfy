/**
 Many workers on the same jobs. Each holds a token and a run of its own; the lease row of a job says
 whose renewals are granted. Nothing but a renewal looks at the lease: a worker that has outlived its
 lease goes on until its next renewal, beside the one that has taken the job over.
 */
module Crews {
  import opened Types
  import opened CheckpointGraph
  import opened NodeLifecycle
  import opened MasterAlgebra
  import opened Worker
  import opened WorkerInvariant
  import opened WorkerEffects
  import opened NodeCoupling
  import opened JobGuarantees
  import opened Fleet
  import opened FleetInvariant
  import opened FleetTheorems
  import Lease

  type Token = nat

  /** The lease columns of a job row. */
  datatype Claim = Claim(token: Option<Token>, until: Option<nat>)

  /** A worker: the job it was started for, where it is, and the expiry it last obtained. */
  datatype Member = Member(job: JobId, run: Run, until: nat)

  /** The stored rows, whose worker slots mean nothing here, the leases and the workers. */
  datatype Crew = Crew(rows: State, seconds: nat, claims: map<JobId, Claim>, members: map<Token, Member>, used: set<Token>)

  datatype CrewEvent =
    | Join(token: Token, job: JobId)      // a new worker tries to acquire the job
    | Advance(token: Token, input: Input) // one step of a worker
    | Quit(token: Token)                  // the finally block of a run that is over
    | Vanish(token: Token)                // a crash
    | Other(event: Event)                 // everything that needs no worker

  function ClaimOn(c: Crew, j: JobId): Claim { if j in c.claims then c.claims[j] else Claim(None, None) }

  /** The lease row as the lease statements see it. */
  function RowOf(c: Crew, j: JobId): Lease.Row
    requires j in c.rows.jobs
  {
    Lease.Row(c.rows.jobs[j].job.active, ClaimOn(c, j).token, ClaimOn(c, j).until)
  }

  predicate Free(claim: Claim, t: Token, now: nat) {
    claim.until.None? || claim.until.value <= now || claim.token == Some(t)
  }

  predicate Works(c: Crew, t: Token) { t in c.members && HasView(c.rows, c.members[t].job) }

  /** The rows as a worker reads them. */
  function ViewFor(c: Crew, t: Token): View
    requires Works(c, t)
  {
    ViewOf(c.rows, c.members[t].job).(run := c.members[t].run)
  }

  function EnvFor(c: Crew, t: Token): Env
    requires t in c.members
  {
    EnvOf(c.rows).(granted := Free(ClaimOn(c, c.members[t].job), t, c.rows.clock))
  }

  /** The sessions that renew the lease. */
  predicate RenewsAt(v: View, env: Env, i: Input) {
    match v.run.pc
    case Mark(_, _, _) => i == Ok
    case Persist(_, _, _) => i == Ok
    case Up(_) => i == Ok
    case Boot => i == Ok || i == Nap
    case Rounds => i == Nap
    case Deploy(_) =>
      i == Ok && HasDeployment(v) && v.deployment.value.state != DeploySucceeded && v.deployment.value.state != DeployFailed
    case Enter(stage) =>
      i == Ok
      && (stage == Provisioned || stage == CheckingIp || stage == TempCleanup || stage == Deploying || stage == FinalCheck
          || ((stage == NodeVerified || stage == MasterUpdating || stage == MasterVerifying) && !v.job.dryRun)
          || (stage == OldVpsCleanup && (v.job.dryRun || env.cfg.allowOldDeletion)))
    case _ => false
  }

  predicate Renewed(v: View, env: Env, i: Input) {
    RenewsAt(v, env, i) && v.job.active && env.granted && Work(v, env, i).run.pc != Failing
  }

  /** Writes the rows of a view back and leaves the slot alone. */
  function PutRows(f: State, w: View, slot: Run): State { Put(f, w.(run := slot)) }

  ghost function Next(c: Crew, e: CrewEvent): Crew {
    match e
    case Join(t, j) =>
      if t !in c.used && HasView(c.rows, j) && Lease.Grants(RowOf(c, j), t, c.rows.clock) then
        var until := c.rows.clock + c.seconds;
        c.(claims := c.claims[j := Claim(Some(t), Some(until))], used := c.used + {t},
           members := c.members[t := Member(j, Run(LoopTop, 0, Protect(c.rows.jobs[j].job)), until)])
      else c
    case Advance(t, i) => if Works(c, t) then Advanced(c, t, i) else c
    case Quit(t) =>
      if t in c.members && c.members[t].run.pc == Idle then
        var j := c.members[t].job;
        c.(members := c.members - {t},
           claims := if ClaimOn(c, j).token == Some(t) then c.claims[j := Claim(None, None)] else c.claims)
      else c
    case Vanish(t) => c.(members := c.members - {t})
    case Other(o) => if o.Take? || o.Die? || o.Step? then c else c.(rows := After(c.rows, o))
  }

  ghost function Advanced(c: Crew, t: Token, i: Input): Crew
    requires Works(c, t)
  {
    var v, env, j := ViewFor(c, t), EnvFor(c, t), c.members[t].job;
    var w := Work(v, env, i);
    var until := if Renewed(v, env, i) then c.rows.clock + c.seconds else c.members[t].until;
    c.(rows := PutRows(c.rows, w, c.rows.jobs[j].run),
       claims := if Renewed(v, env, i) then c.claims[j := Claim(Some(t), Some(until))] else c.claims,
       members := c.members[t := Member(j, w.run, until)])
  }

  predicate CrewPossible(c: Crew, e: CrewEvent) {
    match e
    case Advance(t, i) => Works(c, t) ==> Plausible(ViewFor(c, t), EnvFor(c, t), i) && Visible(ViewFor(c, t), EnvFor(c, t), i)
    case Other(o) => Possible(c.rows, o)
    case _ => true
  }

  /** The worker's lease has not expired. */
  predicate Timely(c: Crew, t: Token) { t in c.members && c.rows.clock < c.members[t].until }

  /** The lease row still names the worker. */
  predicate Recorded(c: Crew, t: Token) { t in c.members && ClaimOn(c, c.members[t].job).token == Some(t) }

  /** The step changes more than where its worker is. */
  ghost predicate Lands(c: Crew, t: Token, i: Input) {
    Works(c, t) && Advanced(c, t, i) != c.(members := Advanced(c, t, i).members)
  }

  /** Every step that lands is made under a lease that has not expired. */
  ghost predicate Disciplined(c: Crew, e: CrewEvent) {
    e.Advance? && Lands(c, e.token, e.input) ==> Timely(c, e.token)
  }

  /** Tokens and jobs are known. */
  ghost predicate TokensKnown(c: Crew) {
    && (forall t :: t in c.members ==> t in c.used && c.members[t].job in c.rows.jobs)
    && (forall j :: j in c.claims ==> j in c.rows.jobs && (c.claims[j].token.Some? ==> c.claims[j].token.value in c.used))
  }

  predicate Named(c: Crew, j: JobId, t: Token) { t in c.members && ClaimOn(c, j).token == Some(t) }

  predicate Backed(c: Crew, t: Token) {
    Recorded(c, t) && ClaimOn(c, c.members[t].job).until == Some(c.members[t].until)
  }

  /** A lease row names only workers of its own job, and every worker whose lease has not expired. */
  ghost predicate Sound(c: Crew) {
    && TokensKnown(c)
    && (forall t :: Timely(c, t) ==> Backed(c, t))
    && (forall j, t :: Named(c, j, t) ==> c.members[t].job == j)
  }

  // ---- The service with one worker slot a job, as the lease row has it ----

  /** The slot of a job: the worker the lease row names, if it is there. */
  predicate SlotFits(c: Crew, j: JobId, run: Run) {
    var t := ClaimOn(c, j).token;
    if t.Some? && t.value in c.members then run == c.members[t.value].run else run.pc == Idle
  }

  /** The same rows, seen with one worker a job. */
  ghost predicate Matches(c: Crew, f: State) {
    && f == c.rows.(jobs := f.jobs) && f.jobs.Keys == c.rows.jobs.Keys
    && forall j :: j in f.jobs ==> f.jobs[j] == c.rows.jobs[j].(run := f.jobs[j].run) && SlotFits(c, j, f.jobs[j].run)
  }

  lemma SameTables(c: Crew, f: State)
    requires Matches(c, f)
    ensures EnvOf(f) == EnvOf(c.rows) && Active(f) == Active(c.rows)
    ensures forall j :: HasView(f, j) <==> HasView(c.rows, j)
    ensures forall j :: HasView(f, j) ==> ViewOf(c.rows, j) == ViewOf(f, j).(run := c.rows.jobs[j].run)
  {
    assert forall j :: j in f.jobs ==> f.jobs[j].job == c.rows.jobs[j].job;
    assert Active(f) == Active(c.rows);
    assert OpenRows(f) == OpenRows(c.rows);
  }

  /** Acquiring and renewing write the lease row as the lease statements do. */
  lemma ClaimsAreLeaseRows(c: Crew, t: Token, i: Input)
    requires Works(c, t) && Renewed(ViewFor(c, t), EnvFor(c, t), i)
    ensures var j, until := c.members[t].job, c.rows.clock + c.seconds;
            var after := Lease.Acquired(RowOf(c, j), t, c.rows.clock, until);
            && Lease.Grants(RowOf(c, j), t, c.rows.clock)
            && ClaimOn(Advanced(c, t, i), j) == Claim(after.token, after.until)
  {
    hide Work, RenewsAt;
  }

  // ---- Leases stay sound ----

  lemma WorkKeepsPlace(c: Crew, t: Token, i: Input)
    requires Works(c, t)
    ensures var w := Work(ViewFor(c, t), EnvFor(c, t), i);
            w.id == c.members[t].job && w.job.node == c.rows.jobs[c.members[t].job].job.node
  {
    WorkKeepsOrigin(ViewFor(c, t), EnvFor(c, t), i);
  }

  /** No step of a worker changes what its job was admitted with. */
  lemma WorkKeepsOrigin(v: View, env: Env, i: Input)
    ensures Work(v, env, i).id == v.id && SameOrigin(v.job, Work(v, env, i).job)
  {
    hide Work;
    if !Loud(v.run.pc) {
      QuietWork(v, env, i);
    } else if v.run.pc == Failing || v.run.pc == OldDone || v.run.pc == DryDone {
      EndingKeepsOrigin(v, env, i);
    } else {
      LoudIsOngoing(v, env, i);
    }
  }

  lemma EndingKeepsOrigin(v: View, env: Env, i: Input)
    requires v.run.pc == Failing || v.run.pc == OldDone || v.run.pc == DryDone
    ensures Work(v, env, i).id == v.id && SameOrigin(v.job, Work(v, env, i).job)
  {
    hide AtFailing, AtOldDone, AtDryDone, SameOrigin;
    match v.run.pc {
      case Failing => FailingOrigin(v);
      case OldDone => OldDoneOrigin(v, env, i);
      case _ => DryDoneOrigin(v, env, i);
    }
  }

  lemma MovedOrigin(j: Job, target: Checkpoint)
    ensures Worker.Moved(j, target).Success? ==> SameOrigin(j, Worker.Moved(j, target).value)
  {
    var r := Worker.Moved(j, target);
    if r.Success? && target != j.checkpoint {
      assert r.value == j.(checkpoint := target, active := r.value.active, advances := r.value.advances);
    }
  }

  lemma FailingOrigin(v: View)
    ensures AtFailing(v).id == v.id && SameOrigin(v.job, AtFailing(v).job)
  {
    hide Worker.Moved, NodeAfterFailure;
    MovedOrigin(v.job, Failed);
  }

  lemma OldDoneOrigin(v: View, env: Env, i: Input)
    ensures AtOldDone(v, env, i).id == v.id && SameOrigin(v.job, AtOldDone(v, env, i).job)
  {
    hide Worker.Moved, CanTransition, Replaced;
    if HasPanel(v) && v.job.oldVps in v.vps {
      ReplacedOrigin(v);
      MovedOrigin(Replaced(v).job, Completed);
    }
  }

  lemma ReplacedOrigin(v: View)
    requires HasPanel(v) && v.job.oldVps in v.vps
    ensures Replaced(v).id == v.id && Replaced(v).job == v.job.(oldDeleted := true)
  {
  }

  lemma DryDoneOrigin(v: View, env: Env, i: Input)
    ensures AtDryDone(v, env, i).id == v.id && SameOrigin(v.job, AtDryDone(v, env, i).job)
  {
    hide Worker.Moved;
    MovedOrigin(v.job, Completed);
  }

  lemma AdvanceSound(c: Crew, t: Token, i: Input)
    requires Sound(c) && Works(c, t) && Disciplined(c, Advance(t, i))
    ensures Sound(Advanced(c, t, i))
  {
    hide Work, RenewsAt, Sound;
    if Timely(c, t) {
      TimelyAdvanceSound(c, t, i);
    } else {
      OverdueAdvanceSound(c, t, i);
    }
  }

  lemma TimelyAdvanceSound(c: Crew, t: Token, i: Input)
    requires Sound(c) && Works(c, t) && Timely(c, t)
    ensures Sound(Advanced(c, t, i))
  {
    hide Work, RenewsAt;
    WorkKeepsPlace(c, t, i);
    var d, j := Advanced(c, t, i), c.members[t].job;
    assert forall k :: k in d.rows.jobs <==> k in c.rows.jobs;
    assert Backed(c, t);
    forall u | Timely(d, u) ensures Backed(d, u) {
      if u != t {
        assert Timely(c, u) && Backed(c, u);
      }
    }
    forall k, u | Named(d, k, u) ensures d.members[u].job == k {
      assert k == j || Named(c, k, u);
      assert u == t || Named(c, k, u);
    }
  }

  lemma OverdueAdvanceSound(c: Crew, t: Token, i: Input)
    requires Sound(c) && Works(c, t) && !Timely(c, t) && Disciplined(c, Advance(t, i))
    ensures Sound(Advanced(c, t, i))
  {
    hide Work, RenewsAt;
    WorkKeepsPlace(c, t, i);
    var d := Advanced(c, t, i);
    assert d.rows == c.rows && d.claims == c.claims;
    forall u | Timely(d, u) ensures Backed(d, u) {
      if u != t {
        assert Timely(c, u) && Backed(c, u);
      }
    }
    forall k, u | Named(d, k, u) ensures d.members[u].job == k {
      assert Named(c, k, u);
    }
  }

  lemma OtherKeepsJobs(f: State, o: Event)
    requires !(o.Take? || o.Die? || o.Step?)
    ensures After(f, o).clock >= f.clock && forall j :: j in f.jobs ==> j in After(f, o).jobs
  {
    hide Ended, Answer;
  }

  lemma NextSound(c: Crew, e: CrewEvent)
    requires Sound(c) && Disciplined(c, e)
    ensures Sound(Next(c, e))
  {
    hide Work, RenewsAt, Disciplined, After;
    match e {
      case Join(t, j) => JoinSound(c, t, j);
      case Advance(t, i) =>
        if Works(c, t) {
          AdvanceSound(c, t, i);
        }
      case Quit(t) => QuitSound(c, t);
      case Vanish(t) => VanishSound(c, t);
      case Other(o) =>
        if !(o.Take? || o.Die? || o.Step?) {
          OtherKeepsJobs(c.rows, o);
          RowsSound(c, After(c.rows, o));
        }
    }
  }

  lemma JoinSound(c: Crew, t: Token, j: JobId)
    requires Sound(c)
    ensures Sound(Next(c, Join(t, j)))
  {
    var d := Next(c, Join(t, j));
    if d != c {
      forall u | Timely(d, u) ensures Backed(d, u) {
        if u != t {
          assert Timely(c, u) && Backed(c, u);
        }
      }
      forall k, u | Named(d, k, u) ensures d.members[u].job == k {
        assert u == t || Named(c, k, u);
      }
    }
  }

  lemma QuitSound(c: Crew, t: Token)
    requires Sound(c)
    ensures Sound(Next(c, Quit(t)))
  {
    var d := Next(c, Quit(t));
    FewerSound(c, d);
  }

  lemma VanishSound(c: Crew, t: Token)
    requires Sound(c)
    ensures Sound(Next(c, Vanish(t)))
  {
    FewerSound(c, Next(c, Vanish(t)));
  }

  /** Workers go, and leases are given back only with the worker they name. */
  lemma FewerSound(c: Crew, d: Crew)
    requires Sound(c) && d == c.(members := d.members, claims := d.claims)
    requires forall u :: u in d.members ==> u in c.members && d.members[u] == c.members[u]
    requires forall j :: j in d.claims ==> j in c.rows.jobs
    requires forall j :: ClaimOn(d, j) == ClaimOn(c, j) || (ClaimOn(d, j) == Claim(None, None) && forall u :: u in d.members ==> !Named(c, j, u))
    ensures Sound(d)
  {
    forall u | Timely(d, u) ensures Backed(d, u) {
      assert Timely(c, u) && Backed(c, u) && Named(c, c.members[u].job, u);
    }
    forall k, u | Named(d, k, u) ensures d.members[u].job == k {
      assert Named(c, k, u);
    }
    forall j | j in d.claims ensures d.claims[j].token.Some? ==> d.claims[j].token.value in d.used {
      assert ClaimOn(d, j) == d.claims[j];
      assert j in c.claims ==> ClaimOn(c, j) == c.claims[j];
    }
  }

  lemma RowsSound(c: Crew, rows: State)
    requires Sound(c) && rows.clock >= c.rows.clock && forall j :: j in c.rows.jobs ==> j in rows.jobs
    ensures Sound(c.(rows := rows))
  {
    var d := c.(rows := rows);
    assert forall j :: ClaimOn(d, j) == ClaimOn(c, j);
    forall u | Timely(d, u) ensures Backed(d, u) {
      assert Timely(c, u) && Backed(c, u);
    }
    forall k, u | Named(d, k, u) ensures d.members[u].job == k {
      assert Named(c, k, u);
    }
  }

  // ---- Disciplined crews are the service with one worker a job ----

  lemma OneEvent(f: State, e: Event)
    requires Possible(f, e)
    ensures PossibleHistory(f, [e]) && History(f, [e]) == After(f, e)
  {
    hide Possible, After;
    assert [e][..0] == [];
    assert History(f, []) == f;
  }

  lemma TwoEvents(f: State, e: Event, d: Event)
    requires Possible(f, e) && Possible(After(f, e), d)
    ensures PossibleHistory(f, [e, d]) && History(f, [e, d]) == After(After(f, e), d)
  {
    hide Possible, After;
    OneEvent(f, e);
    Lengthened(f, [e], d);
    assert [e] + [d] == [e, d];
  }

  lemma RecordedView(c: Crew, f: State, t: Token)
    requires Matches(c, f) && Works(c, t) && Recorded(c, t)
    ensures var j := c.members[t].job;
            HasView(f, j) && ViewOf(f, j) == ViewFor(c, t) && EnvOf(f) == EnvFor(c, t)
  {
    SameTables(c, f);
  }

  /** The rows of a recorded worker's job are written, and it stays recorded. */
  lemma PutMatches(c: Crew, d: Crew, f: State, t: Token, w: View)
    requires Sound(c) && Matches(c, f) && t in c.members && c.members[t].job == w.id && w.id in f.jobs
    requires w.job.node == f.jobs[w.id].job.node
    requires d.rows == PutRows(c.rows, w, c.rows.jobs[w.id].run) && t in d.members && d.members == c.members[t := d.members[t]]
    requires d.members[t].run == w.run && ClaimOn(d, w.id).token == Some(t)
    requires forall k :: k != w.id ==> ClaimOn(d, k) == ClaimOn(c, k)
    ensures Matches(d, Put(f, w))
  {
    var g := Put(f, w);
    forall k | k in g.jobs ensures g.jobs[k] == d.rows.jobs[k].(run := g.jobs[k].run) && SlotFits(d, k, g.jobs[k].run) {
      if k != w.id {
        assert SlotFits(c, k, f.jobs[k].run) && !Named(c, k, t);
      }
    }
  }

  lemma AdvanceRecorded(c: Crew, f: State, t: Token, i: Input)
    requires Sound(c) && Matches(c, f) && Works(c, t) && Recorded(c, t) && CrewPossible(c, Advance(t, i))
    ensures Possible(f, Step(c.members[t].job, i))
    ensures Matches(Advanced(c, t, i), After(f, Step(c.members[t].job, i)))
  {
    hide Work, RenewsAt, Plausible, Visible, EnvOf, Sound, Matches, SlotFits;
    RecordedView(c, f, t);
    WorkKeepsPlace(c, t, i);
    var w := Work(ViewFor(c, t), EnvFor(c, t), i);
    MatchedNode(c, f, t);
    PutMatches(c, Advanced(c, t, i), f, t, w);
  }

  lemma MatchedNode(c: Crew, f: State, t: Token)
    requires Matches(c, f) && Works(c, t)
    ensures c.members[t].job in f.jobs && f.jobs[c.members[t].job].job == c.rows.jobs[c.members[t].job].job
  {
  }

  lemma AdvanceStale(c: Crew, f: State, t: Token, i: Input)
    requires Sound(c) && Matches(c, f) && Works(c, t) && !Recorded(c, t) && Disciplined(c, Advance(t, i))
    ensures Matches(Advanced(c, t, i), f)
  {
    hide Work, RenewsAt;
    var d := Advanced(c, t, i);
    assert Timely(c, t) ==> Backed(c, t);
    assert d.rows == c.rows && d.claims == c.claims;
    forall k | k in f.jobs ensures SlotFits(d, k, f.jobs[k].run) {
      assert ClaimOn(d, k) == ClaimOn(c, k) && SlotFits(c, k, f.jobs[k].run);
      assert !Named(c, k, t);
    }
  }

  lemma DieIs(f: State, j: JobId)
    requires HasView(f, j)
    ensures After(f, Die(j)) == f.(jobs := f.jobs[j := f.jobs[j].(run := f.jobs[j].run.(pc := Idle))])
  {
    assert f.nodes[f.jobs[j].job.node := f.nodes[f.jobs[j].job.node]] == f.nodes;
  }

  lemma TakeIs(f: State, j: JobId)
    requires HasView(f, j) && f.jobs[j].job.active && f.jobs[j].run.pc == Idle
    ensures After(f, Take(j)) == f.(jobs := f.jobs[j := f.jobs[j].(run := Run(LoopTop, 0, Protect(f.jobs[j].job)))])
  {
    assert f.nodes[f.jobs[j].job.node := f.nodes[f.jobs[j].job.node]] == f.nodes;
  }

  lemma JoinMatches(c: Crew, f: State, t: Token, j: JobId)
    requires Sound(c) && Matches(c, f) && Next(c, Join(t, j)) != c
    ensures var g := After(f, Die(j)); Possible(f, Die(j)) && Possible(g, Take(j)) && Matches(Next(c, Join(t, j)), After(g, Take(j)))
  {
    hide After, EnvOf, Active, Next, Matches;
    var d := Next(c, Join(t, j));
    JoinShape(c, t, j);
    JobsMatch(c, f, j);
    DieIs(f, j);
    TakeIs(After(f, Die(j)), j);
    JoinSlots(c, f, t, j, After(After(f, Die(j)), Take(j)));
  }

  lemma JobsMatch(c: Crew, f: State, j: JobId)
    requires Matches(c, f)
    ensures HasView(f, j) <==> HasView(c.rows, j)
    ensures j in f.jobs ==> j in c.rows.jobs && f.jobs[j].job == c.rows.jobs[j].job
  {
    hide SlotFits;
  }

  lemma JoinShape(c: Crew, t: Token, j: JobId)
    requires Next(c, Join(t, j)) != c
    ensures t !in c.used && HasView(c.rows, j) && c.rows.jobs[j].job.active
    ensures var d := Next(c, Join(t, j));
            && d.rows == c.rows && d.claims == c.claims[j := ClaimOn(d, j)] && ClaimOn(d, j).token == Some(t)
            && d.members == c.members[t := d.members[t]] && t in d.members
            && d.members[t].run == Run(LoopTop, 0, Protect(c.rows.jobs[j].job))
  {
  }

  /** The slot of job j is that of the newcomer, and no other job is claimed by it. */
  lemma JoinSlots(c: Crew, f: State, t: Token, j: JobId, g: State)
    requires Sound(c) && Matches(c, f) && Next(c, Join(t, j)) != c && j in f.jobs
    requires g == f.(jobs := f.jobs[j := f.jobs[j].(run := Run(LoopTop, 0, Protect(f.jobs[j].job)))])
    ensures Matches(Next(c, Join(t, j)), g)
  {
    hide Next, Matches;
    JoinShape(c, t, j);
    JobsMatch(c, f, j);
    SlotMatches(c, Next(c, Join(t, j)), f, g, j);
  }

  /** Only the slot of job j and what its lease row names have changed. */
  lemma SlotMatches(c: Crew, d: Crew, f: State, g: State, j: JobId)
    requires Matches(c, f) && d.rows == c.rows && j in f.jobs && j in g.jobs
    requires g == f.(jobs := f.jobs[j := f.jobs[j].(run := g.jobs[j].run)]) && SlotFits(d, j, g.jobs[j].run)
    requires forall k :: k != j ==> ClaimOn(d, k) == ClaimOn(c, k)
    requires forall k, t :: k != j && ClaimOn(c, k).token == Some(t) ==>
               (t in d.members <==> t in c.members) && (t in c.members ==> d.members[t] == c.members[t])
    ensures Matches(d, g)
  {
    forall k | k in g.jobs ensures g.jobs[k] == d.rows.jobs[k].(run := g.jobs[k].run) && SlotFits(d, k, g.jobs[k].run) {
      if k != j {
        assert ClaimOn(d, k) == ClaimOn(c, k) && SlotFits(c, k, f.jobs[k].run);
      }
    }
  }

  lemma QuitMatches(c: Crew, f: State, t: Token)
    requires Sound(c) && Matches(c, f)
    ensures Matches(Next(c, Quit(t)), f)
  {
    hide SlotFits;
    assert Next(c, Quit(t)).rows == c.rows;
    forall k | k in f.jobs ensures SlotFits(Next(c, Quit(t)), k, f.jobs[k].run) {
      assert SlotFits(c, k, f.jobs[k].run);
      QuitSlot(c, t, k, f.jobs[k].run);
    }
  }

  lemma QuitSlot(c: Crew, t: Token, k: JobId, run: Run)
    requires Sound(c) && SlotFits(c, k, run)
    ensures SlotFits(Next(c, Quit(t)), k, run)
  {
    assert Named(c, k, t) ==> c.members[t].job == k;
  }

  lemma VanishRecorded(c: Crew, f: State, t: Token)
    requires Sound(c) && Matches(c, f) && Recorded(c, t) && HasView(f, c.members[t].job)
    ensures Possible(f, Die(c.members[t].job)) && Matches(Next(c, Vanish(t)), After(f, Die(c.members[t].job)))
  {
    hide After;
    var j := c.members[t].job;
    DieIs(f, j);
    forall k | k != j ensures ClaimOn(c, k).token != Some(t) {
      assert !Named(c, k, t);
    }
    SlotMatches(c, Next(c, Vanish(t)), f, After(f, Die(j)), j);
  }

  lemma VanishStale(c: Crew, f: State, t: Token)
    requires Sound(c) && Matches(c, f) && !Recorded(c, t)
    ensures Matches(Next(c, Vanish(t)), f)
  {
    var d := Next(c, Vanish(t));
    forall k | k in f.jobs ensures SlotFits(d, k, f.jobs[k].run) {
      assert SlotFits(c, k, f.jobs[k].run) && !Named(c, k, t);
    }
  }

  lemma CancelIgnoresRun(v: View, run: Run)
    ensures Cancel(v.(run := run)) == Cancel(v).(run := run)
  {
  }

  /** The rows of a job after its cancel. */
  lemma StopMatches(c: Crew, f: State, id: JobId)
    requires Sound(c) && Matches(c, f)
    ensures Matches(c.(rows := After(c.rows, Stop(id))), After(f, Stop(id)))
  {
    hide Cancel, SlotFits, ClaimOn, Sound, Active, OpenRows;
    SameTables(c, f);
    var d, g := After(c.rows, Stop(id)), After(f, Stop(id));
    if HasView(f, id) {
      var v := ViewOf(f, id);
      CancelIgnoresRun(v, c.rows.jobs[id].run);
      CancelKeepsPlace(v);
      assert d == Put(c.rows, Cancel(v).(run := c.rows.jobs[id].run)) && g == Put(f, Cancel(v));
    }
    NewRowsMatch(c, f, d, g);
  }

  /** Other rows under the same claims: no slot has changed. */
  lemma NewRowsMatch(c: Crew, f: State, rows: State, g: State)
    requires Matches(c, f) && g == rows.(jobs := g.jobs) && g.jobs.Keys == rows.jobs.Keys == f.jobs.Keys
    requires forall k :: k in g.jobs ==> g.jobs[k] == rows.jobs[k].(run := g.jobs[k].run) && g.jobs[k].run == f.jobs[k].run
    ensures Matches(c.(rows := rows), g)
  {
    var d := c.(rows := rows);
    forall k | k in g.jobs ensures SlotFits(d, k, g.jobs[k].run) {
      assert ClaimOn(d, k) == ClaimOn(c, k) && SlotFits(c, k, f.jobs[k].run);
    }
  }

  lemma CancelKeepsPlace(v: View)
    ensures Cancel(v).id == v.id && Cancel(v).run == v.run && Cancel(v).job.node == v.job.node
  {
  }

  lemma SameAnswer(c: Crew, f: State, r: Request)
    requires Matches(c, f)
    ensures Answer(f, r).Admitted? <==> Answer(c.rows, r).Admitted?
  {
    hide Entered, KeyFits;
    SameTables(c, f);
    assert forall j :: j in f.jobs ==> f.jobs[j].job == c.rows.jobs[j].job;
    assert r.key.Some? ==> (Known(f, r.key.value) <==> Known(c.rows, r.key.value));
    assert Busy(f, r.node) <==> Busy(c.rows, r.node);
  }

  lemma TriggerMatches(c: Crew, f: State, r: Request, id: JobId, current: ServerId)
    requires Sound(c) && Matches(c, f) && Possible(c.rows, Trigger(r, id, current))
    ensures Possible(f, Trigger(r, id, current))
    ensures Matches(c.(rows := After(c.rows, Trigger(r, id, current))), After(f, Trigger(r, id, current)))
  {
    hide Entered, Answer, SlotFits, ClaimOn, Sound;
    SameAnswer(c, f, r);
    var rows, g := After(c.rows, Trigger(r, id, current)), After(f, Trigger(r, id, current));
    var d := c.(rows := rows);
    forall k | k in g.jobs ensures SlotFits(d, k, g.jobs[k].run) {
      if k in f.jobs {
        assert SlotFits(c, k, f.jobs[k].run) && g.jobs[k].run == f.jobs[k].run;
        SlotIgnoresRows(c, rows, k, g.jobs[k].run);
      } else {
        NewJobIsFree(c, rows, k, g.jobs[k].run);
      }
    }
  }

  lemma SlotIgnoresRows(c: Crew, rows: State, k: JobId, run: Run)
    requires SlotFits(c, k, run)
    ensures SlotFits(c.(rows := rows), k, run)
  {
  }

  lemma NewJobIsFree(c: Crew, rows: State, k: JobId, run: Run)
    requires Sound(c) && k !in c.rows.jobs && run.pc == Idle
    ensures SlotFits(c.(rows := rows), k, run)
  {
  }

  lemma AsideMatches(c: Crew, f: State, o: Event)
    requires Sound(c) && Matches(c, f) && (o.Monitor? || o.SetMode? || o.EditMaster? || o.Tick?)
    ensures Matches(c.(rows := After(c.rows, o)), After(f, o))
  {
    hide SlotFits, ClaimOn, Sound, Active, OpenRows;
    assert forall n :: Busy(f, n) <==> Busy(c.rows, n);
    AsideIgnoresJobs(c.rows, f, o);
    NewRowsMatch(c, f, After(c.rows, o), After(f, o));
  }

  lemma AsideIgnoresJobs(f: State, g: State, o: Event)
    requires g == f.(jobs := g.jobs) && (o.Monitor? || o.SetMode? || o.EditMaster? || o.Tick?)
    requires forall n :: Busy(f, n) <==> Busy(g, n)
    ensures After(f, o).jobs == f.jobs && After(g, o) == After(f, o).(jobs := g.jobs)
  {
    hide Busy;
  }

  /** One event of a disciplined crew is a short piece of a history of the service. */
  lemma Simulated(c: Crew, f: State, e: CrewEvent) returns (es: seq<Event>)
    requires Sound(c) && Matches(c, f) && CrewPossible(c, e) && Disciplined(c, e) && Orderly(f)
    ensures PossibleHistory(f, es) && Matches(Next(c, e), History(f, es))
  {
    hide Orderly, After, Possible, Disciplined, Work, RenewsAt, Matches, Plausible, Visible;
    es := [];
    assert PossibleHistory(f, []) && History(f, []) == f;
    match e {
      case Join(t, j) =>
        if Next(c, e) != c {
          JoinMatches(c, f, t, j);
          TwoEvents(f, Die(j), Take(j));
          es := [Die(j), Take(j)];
        }
      case Advance(t, i) =>
        if Works(c, t) && Recorded(c, t) {
          AdvanceRecorded(c, f, t, i);
          OneEvent(f, Step(c.members[t].job, i));
          es := [Step(c.members[t].job, i)];
        } else if Works(c, t) {
          AdvanceStale(c, f, t, i);
        }
      case Quit(t) => QuitMatches(c, f, t);
      case Vanish(t) =>
        if Recorded(c, t) {
          MemberHasView(c, f, t);
          VanishRecorded(c, f, t);
          OneEvent(f, Die(c.members[t].job));
          es := [Die(c.members[t].job)];
        } else {
          VanishStale(c, f, t);
        }
      case Other(o) =>
        if !(o.Take? || o.Die? || o.Step?) {
          OtherMatches(c, f, o);
          OneEvent(f, o);
          es := [o];
        }
    }
  }

  lemma MemberHasView(c: Crew, f: State, t: Token)
    requires Sound(c) && Matches(c, f) && Orderly(f) && t in c.members
    ensures HasView(f, c.members[t].job)
  {
    hide Orderly;
    OneJob(f, c.members[t].job);
  }

  lemma OtherMatches(c: Crew, f: State, o: Event)
    requires Sound(c) && Matches(c, f) && Possible(c.rows, o) && !(o.Take? || o.Die? || o.Step?)
    ensures Possible(f, o) && Matches(c.(rows := After(c.rows, o)), After(f, o))
  {
    hide After, Matches;
    match o {
      case Trigger(r, id, current) => TriggerMatches(c, f, r, id, current);
      case Stop(id) => StopMatches(c, f, id);
      case _ => AsideMatches(c, f, o);
    }
  }

  // ---- Whole runs of a crew ----

  ghost function CrewAfter(c: Crew, es: seq<CrewEvent>): Crew {
    if es == [] then c else Next(CrewAfter(c, es[..|es| - 1]), es[|es| - 1])
  }

  ghost predicate DisciplinedRun(c: Crew, es: seq<CrewEvent>) {
    forall n :: 0 <= n < |es| ==> CrewPossible(CrewAfter(c, es[..n]), es[n]) && Disciplined(CrewAfter(c, es[..n]), es[n])
  }

  /** The service as it is set up, before any worker has started. */
  ghost predicate Unmanned(c: Crew) {
    Initial(c.rows) && c.claims == map[] && c.members == map[] && c.used == {}
  }

  /**
   However many workers compete for however many jobs: as long as every step that lands is made under
   a lease that has not expired, the rows are those of the service with one worker a job.
   */
  lemma {:induction false} TimelyCrewsAreTheService(c: Crew, es: seq<CrewEvent>) returns (f: State)
    requires Unmanned(c) && DisciplinedRun(c, es)
    ensures Attainable(f) && Matches(CrewAfter(c, es), f) && Sound(CrewAfter(c, es))
  {
    hide Attainable, Matches, Sound, Next, CrewPossible, Disciplined;
    if es == [] {
      f := c.rows;
      UnmannedMatches(c);
    } else {
      var front, e := es[..|es| - 1], es[|es| - 1];
      forall n | 0 <= n < |front|
        ensures CrewPossible(CrewAfter(c, front[..n]), front[n]) && Disciplined(CrewAfter(c, front[..n]), front[n])
      {
        assert front[..n] == es[..n];
      }
      var g := TimelyCrewsAreTheService(c, front);
      AttainableOrderly(g);
      var piece := Simulated(CrewAfter(c, front), g, e);
      f := History(g, piece);
      AttainableAlong(g, piece);
      NextSound(CrewAfter(c, front), e);
    }
  }

  lemma UnmannedMatches(c: Crew)
    requires Unmanned(c)
    ensures Attainable(c.rows) && Matches(c, c.rows) && Sound(c)
  {
    hide Possible, After, Initial;
    assert forall j :: j !in c.rows.jobs by { NoJobs(c); }
  }

  lemma NoJobs(c: Crew)
    requires Unmanned(c)
    ensures c.rows.jobs == map[]
  {
  }

  // ---- What an overdue worker does ----

  /** A renewal that is refused raises; the job row stays as it is. */
  lemma RefusedRenewalRaises(v: View, env: Env, i: Input)
    requires RenewsAt(v, env, i) && !env.granted
    ensures var w := Work(v, env, i);
            w.run.pc == Failing && w.job == v.job && w.id == v.id && w.vps == v.vps && w.servers == v.servers
            && w.node == v.node && w.master == v.master && w.log == v.log
  {
    hide Work;
    if v.run.pc.Enter? {
      WorkAtStage(v, env, i);
      RefusedAtStage(v, env, i);
    } else {
      RefusedAtPlace(v, env, i);
    }
  }

  lemma RefusedAtStage(v: View, env: Env, i: Input)
    requires v.run.pc.Enter? && RenewsAt(v, env, i) && !env.granted
    ensures AtStage(v, env, i) == Fall(v)
  {
    hide TargetFor, GuardPermits;
  }

  lemma RefusedAtPlace(v: View, env: Env, i: Input)
    requires !v.run.pc.Enter? && RenewsAt(v, env, i) && !env.granted
    ensures var w := Work(v, env, i);
            w.run.pc == Failing && w == v.(run := w.run, deployment := w.deployment)
  {
    hide AtStage, AtCreate, AtSwitch, AtRollWrite, AtOldDone, AtFailing, AtReaped;
  }

  lemma FailingEndsJob(v: View)
    requires v.run.pc == Failing && !Terminal(v.job.checkpoint)
    requires v.job.force ==> v.job.original.Some? && Restorable(v.job.original.value)
    ensures var w := AtFailing(v);
            && w.job == v.job.(checkpoint := Failed, active := false) && w.id == v.id
            && w.vps == v.vps && w.servers == v.servers && w.run == v.run.(pc := Idle)
  {
  }

  lemma FailingWork(v: View, env: Env, i: Input)
    requires v.run.pc == Failing
    ensures Work(v, env, i) == AtFailing(v)
  {
    hide AtFailing;
  }

  /**
   A worker that comes to a renewal after another one has taken its lease over is refused there, and
   its error ends the job as FAILED under the hands of the other, whose lease has not expired.
   */
  lemma OverdueRenewalFailsTheJob(c: Crew, t: Token, u: Token, i: Input, any: Input)
    requires Sound(c) && Works(c, t) && Timely(c, u) && u != t && c.members[u].job == c.members[t].job && Works(c, u)
    requires Inv(ViewFor(c, u), c.rows.clock) && !Terminal(ViewFor(c, u).job.checkpoint)
    requires RenewsAt(ViewFor(c, t), EnvFor(c, t), i)
    ensures var j := c.members[t].job;
            var d := Next(Next(c, Advance(t, i)), Advance(t, any));
            && j in d.rows.jobs && d.rows.jobs[j].job.checkpoint == Failed && !d.rows.jobs[j].job.active
            && Timely(d, u) && d.members[u] == c.members[u] && d.claims == c.claims
  {
    hide Work, RenewsAt, AtFailing, Next, Inv, Sound;
    StaysBacked(c, u);
    RefusedAdvance(c, t, i);
    JobIsOpen(ViewFor(c, u), c.rows.clock);
    FailingAdvance(Next(c, Advance(t, i)), t, any);
  }

  lemma StaysBacked(c: Crew, u: Token)
    requires Sound(c) && Timely(c, u)
    ensures Backed(c, u)
  {
  }

  lemma JobIsOpen(v: View, clock: nat)
    requires Inv(v, clock)
    ensures v.job.force ==> v.job.original.Some? && Restorable(v.job.original.value)
  {
    WorkerInvariant.Opened(v, clock);
    JobFacts(v, clock);
  }

  /** The error of a worker is recorded, whoever holds the lease. */
  lemma FailingAdvance(c: Crew, t: Token, i: Input)
    requires Works(c, t) && c.members[t].run.pc == Failing && !Terminal(ViewFor(c, t).job.checkpoint)
    requires ViewFor(c, t).job.force ==> ViewFor(c, t).job.original.Some? && Restorable(ViewFor(c, t).job.original.value)
    ensures var j, d := c.members[t].job, Next(c, Advance(t, i));
            && d == c.(rows := d.rows, members := c.members[t := d.members[t]]) && d.rows.clock == c.rows.clock
            && j in d.rows.jobs && d.rows.jobs[j].job.checkpoint == Failed && !d.rows.jobs[j].job.active
  {
    hide Work, RenewsAt, AtFailing, Next;
    var v, env := ViewFor(c, t), EnvFor(c, t);
    NoRenewalInFailing(v, env, i);
    FailingEndsJob(v);
    FailingWork(v, env, i);
    PlainAdvance(c, t, i);
  }

  lemma RefusedAdvance(c: Crew, t: Token, i: Input)
    requires Works(c, t) && RenewsAt(ViewFor(c, t), EnvFor(c, t), i) && !EnvFor(c, t).granted
    ensures var d := Next(c, Advance(t, i));
            && d == c.(rows := d.rows, members := c.members[t := d.members[t]]) && d.rows.clock == c.rows.clock
            && Works(d, t) && d.members[t].job == c.members[t].job && d.members[t].run.pc == Failing
            && ViewFor(d, t).job == ViewFor(c, t).job && ViewFor(d, t).id == ViewFor(c, t).id
  {
    hide Work, RenewsAt;
    RefusedRenewalRaises(ViewFor(c, t), EnvFor(c, t), i);
  }

  lemma NoRenewalInFailing(v: View, env: Env, i: Input)
    requires v.run.pc == Failing || v.run.pc == LoopTop || v.run.pc.OldDelete? || v.run.pc.Await?
    ensures !RenewsAt(v, env, i)
  {
  }

  ghost predicate CanHappen(c: Crew, es: seq<CrewEvent>) {
    forall n :: 0 <= n < |es| ==> CrewPossible(CrewAfter(c, es[..n]), es[n])
  }

  lemma OneMore(c: Crew, es: seq<CrewEvent>, e: CrewEvent)
    requires CanHappen(c, es) && CrewPossible(CrewAfter(c, es), e)
    ensures CanHappen(c, es + [e]) && CrewAfter(c, es + [e]) == Next(CrewAfter(c, es), e)
  {
    hide Next, CrewPossible;
    var all := es + [e];
    assert all[..|es|] == es;
    forall n | 0 <= n < |all| ensures CrewPossible(CrewAfter(c, all[..n]), all[n]) {
      assert n < |es| ==> all[..n] == es[..n];
    }
  }

  lemma TickIs(c: Crew)
    ensures CrewPossible(c, Other(Tick)) && Next(c, Other(Tick)) == c.(rows := c.rows.(clock := c.rows.clock + 1))
  {
  }

  lemma {:induction false} TimePasses(c: Crew, n: nat) returns (es: seq<CrewEvent>)
    ensures CanHappen(c, es) && CrewAfter(c, es) == c.(rows := c.rows.(clock := c.rows.clock + n))
  {
    hide Next, CrewPossible;
    es := [];
    if n > 0 {
      es := TimePasses(c, n - 1);
      TickIs(CrewAfter(c, es));
      OneMore(c, es, Other(Tick));
      es := es + [Other(Tick)];
    }
  }

  /** The wait for the provider renews nothing, so it can outlive the lease without any fault. */
  lemma LongWaitLosesTheLease(c: Crew, t: Token, u: Token, ip: string) returns (es: seq<CrewEvent>)
    requires Sound(c) && Works(c, t) && Timely(c, t) && c.members[t].run.pc.Await? && c.rows.jobs[c.members[t].job].job.active
    requires u !in c.used && c.seconds >= 1 && ip != ""
    ensures CanHappen(c, es)
    ensures var d := CrewAfter(c, es);
            && Timely(d, u) && d.members[u].job == c.members[t].job && Works(d, t) && Works(d, u)
            && d.members[t].job == c.members[t].job && d.members[t].run.pc == Up(ip)
            && ViewFor(d, u).job == ViewFor(c, t).job && RenewsAt(ViewFor(d, t), EnvFor(d, t), Ok)
  {
    hide Next, CanHappen;
    var j := c.members[t].job;
    es := TimePasses(c, c.members[t].until - c.rows.clock);
    var late := CrewAfter(c, es);
    assert Backed(c, t);
    TakesOver(late, u, j);
    OneMore(c, es, Join(u, j));
    es := es + [Join(u, j)];
    var taken := CrewAfter(c, es);
    WaitEnds(taken, t, ip);
    OneMore(c, es, Advance(t, Ready(ip)));
    es := es + [Advance(t, Ready(ip))];
  }

  lemma TakesOver(c: Crew, u: Token, j: JobId)
    requires u !in c.used && HasView(c.rows, j) && c.rows.jobs[j].job.active
    requires ClaimOn(c, j).until.Some? && ClaimOn(c, j).until.value <= c.rows.clock
    ensures var until := c.rows.clock + c.seconds;
            Next(c, Join(u, j)) ==
            c.(claims := c.claims[j := Claim(Some(u), Some(until))], used := c.used + {u},
               members := c.members[u := Member(j, Run(LoopTop, 0, Protect(c.rows.jobs[j].job)), until)])
  {
  }

  lemma WaitEnds(c: Crew, t: Token, ip: string)
    requires Works(c, t) && c.members[t].run.pc.Await? && ip != ""
    ensures CrewPossible(c, Advance(t, Ready(ip)))
    ensures var d := Next(c, Advance(t, Ready(ip)));
            && d == c.(rows := d.rows, members := c.members[t := c.members[t].(run := c.members[t].run.(pc := Up(ip)))])
            && d.rows == c.rows
  {
    var v, j := ViewFor(c, t), c.members[t].job;
    assert c.rows.nodes[v.job.node := c.rows.nodes[v.job.node]] == c.rows.nodes;
    assert c.rows.jobs[j := c.rows.jobs[j]] == c.rows.jobs;
  }

  /** A worker without a renewal on its way takes a step: its rows are written, the leases stay. */
  lemma PlainAdvance(c: Crew, t: Token, i: Input)
    requires Works(c, t) && !RenewsAt(ViewFor(c, t), EnvFor(c, t), i)
    requires var w := Work(ViewFor(c, t), EnvFor(c, t), i);
             w.id == c.members[t].job && w.job.node == c.rows.jobs[c.members[t].job].job.node
    ensures var w := Work(ViewFor(c, t), EnvFor(c, t), i);
            var d := Next(c, Advance(t, i));
            && d == c.(rows := d.rows, members := c.members[t := c.members[t].(run := w.run)])
            && d.rows == PutRows(c.rows, w, c.rows.jobs[c.members[t].job].run)
            && Works(d, t) && ViewFor(d, t) == w
  {
    hide Work, RenewsAt;
  }

  lemma LoopErrors(v: View, env: Env)
    requires v.run.pc == LoopTop && v.run.dispatches < STEP_LIMIT && !Terminal(v.job.checkpoint)
    ensures Work(v, env, Broken(false)) == Fall(v)
  {
  }

  /** The worker that takes the lease over meets a hard error and records it. */
  lemma NewcomerFails(c: Crew, u: Token)
    requires Works(c, u) && c.members[u].run.pc == LoopTop && c.members[u].run.dispatches < STEP_LIMIT
    requires Inv(ViewFor(c, u), c.rows.clock) && Coupled(ViewFor(c, u)) && Live(ViewFor(c, u).job)
    requires ViewFor(c, u).job.masterUpdated
    ensures var d := Next(Next(c, Advance(u, Broken(false))), Advance(u, Ok));
            var v, j := ViewFor(c, u), c.members[u].job;
            && d == c.(rows := d.rows, members := d.members) && d.members == c.members[u := d.members[u]]
            && Works(d, u) && d.members[u].job == j && d.members[u].until == c.members[u].until
            && ViewFor(d, u) == v.(run := ViewFor(d, u).run, job := v.job.(checkpoint := Failed, active := false),
                                   node := v.node.(state := NodeFailed))
            && d.rows.clock == c.rows.clock && d.rows.cfg == c.rows.cfg
  {
    hide Work, RenewsAt, Ended, Coupled;
    var v, env := ViewFor(c, u), EnvFor(c, u);
    ActiveIsOpen(v, c.rows.clock);
    LoopErrors(v, env);
    NoRenewalInFailing(v, env, Broken(false));
    PlainAdvance(c, u, Broken(false));
    var c1 := Next(c, Advance(u, Broken(false)));
    NoRenewalInFailing(Fall(v), EnvFor(c1, u), Ok);
    FailingWork(Fall(v), EnvFor(c1, u), Ok);
    FailingRecords(v, c.rows.clock);
    PlainAdvance(c1, u, Ok);
  }

  lemma ActiveIsOpen(v: View, clock: nat)
    requires Inv(v, clock) && v.job.active
    ensures !Terminal(v.job.checkpoint)
  {
    WorkerInvariant.Opened(v, clock);
    JobFacts(v, clock);
  }

  lemma FailingRecords(v: View, clock: nat)
    requires Inv(v, clock) && Coupled(v) && Live(v.job) && v.job.masterUpdated
    ensures AtFailing(Fall(v)) == v.(run := v.run.(pc := Idle), job := v.job.(checkpoint := Failed, active := false),
                                    node := v.node.(state := NodeFailed))
  {
    hide Ended, Coupled;
    WorkerInvariant.Opened(v, clock);
    JobFacts(v, clock);
    FallKeeps(v, clock);
    WorkerInvariant.Opened(Fall(v), clock);
    EndingIsNeverRefused(Fall(v), Failed, clock);
    EndingRestores(Fall(v), Failed, clock) by { FallCoupled(v); }
  }

  lemma FallKeeps(v: View, clock: nat)
    requires Inv(v, clock) && Live(v.job)
    ensures Inv(Fall(v), clock)
  {
    WorkerInvariant.Opened(v, clock);
    JobFacts(v, clock);
    GivingUpKeeps(v, clock);
  }

  lemma FallCoupled(v: View)
    requires Coupled(v)
    ensures Coupled(Fall(v))
  {
  }

  /**
   An overdue worker on the point of deleting an old server is not stopped by the lease: another one
   takes the job over, meets an error and records it FAILED, its node too -- and then the first one
   deletes the server that is still the node's current one.
   */
  lemma OverdueDeletionKillsCurrentServer(c: Crew, t: Token, u: Token)
    requires Sound(c) && Works(c, t) && c.members[t].run.pc.OldDelete? && u !in c.used
    requires ClaimOn(c, c.members[t].job).until.Some? && ClaimOn(c, c.members[t].job).until.value <= c.rows.clock
    requires Inv(ViewFor(c, t), c.rows.clock) && Coupled(ViewFor(c, t)) && c.seconds >= 1
    requires var v := ViewFor(c, t); SameWorld(v, v.job.oldVps) && v.servers[v.job.oldVps].alive
    ensures var j := c.members[t].job;
            var k := c.rows.jobs[j].job.oldVps;
            var d := Next(Next(Next(c, Join(u, j)), Advance(u, Broken(false))), Advance(u, Ok));
            var e := Next(d, Advance(t, Ok));
            && Works(d, t) && j in d.rows.jobs && d.rows.jobs[j].job.checkpoint == Failed && !d.rows.jobs[j].job.active
            && d.rows.jobs[j].job.node in d.rows.nodes && d.rows.nodes[d.rows.jobs[j].job.node].row.state == NodeFailed
            && k in d.rows.vps && IsCurrent(d.rows.vps[k], d.rows.jobs[j].job.node)
            && k in d.rows.servers && d.rows.servers[k].alive
            && k in e.rows.servers && !e.rows.servers[k].alive && e.rows.vps == d.rows.vps
  {
    hide Work, RenewsAt, Next, Coupled;
    var v, j := ViewFor(c, t), c.members[t].job;
    OldDeleteIsGated(v, c.rows.clock);
    TakesOver(c, u, j);
    var c1 := Next(c, Join(u, j));
    assert ViewFor(c1, u) == v.(run := Run(LoopTop, 0, Protect(v.job)));
    FreshRun(v, c.rows.clock);
    NewcomerFails(c1, u);
    var d := Next(Next(c1, Advance(u, Broken(false))), Advance(u, Ok));
    assert ViewFor(d, t) == v.(job := v.job.(checkpoint := Failed, active := false), node := v.node.(state := NodeFailed));
    DeletionStep(ViewFor(d, t), EnvFor(d, t));
    NoRenewalInFailing(ViewFor(d, t), EnvFor(d, t), Ok);
    PlainAdvance(d, t, Ok);
  }

  lemma FreshRun(v: View, clock: nat)
    requires Inv(v, clock) && Coupled(v) && v.job.active
    ensures Inv(v.(run := Run(LoopTop, 0, Protect(v.job))), clock) && Coupled(v.(run := Run(LoopTop, 0, Protect(v.job))))
  {
    CrashKeeps(v, clock);
    AcquireKeeps(Crash(v), clock);
    AcquireCoupled(v);
    assert Acquire(Crash(v)) == v.(run := Run(LoopTop, 0, Protect(v.job)));
  }

  lemma DeletionStep(v: View, env: Env)
    requires v.run.pc.OldDelete?
    ensures Work(v, env, Ok) == Go(Killed(v, v.run.pc.server), OldDone)
  {
    hide Killed;
  }
}
