/** Deploying the panel on a new server: a sub-machine that resumes from its persisted state. */
module DeploymentService {
  import opened Types
  import Worker

  predicate Allowed(s: DeployState, target: DeployState) {
    match s
    case DeployPending => target == WaitingSsh || target == DeployFailed
    case WaitingSsh => target == Bootstrapping || target == DeployFailed
    case Bootstrapping => target == Installing || target == DeployFailed
    case Installing => target == DeployVerifying || target == DeployFailed
    case DeployVerifying => target == DeploySucceeded || target == DeployFailed
    case _ => false
  }

  predicate Ended(s: DeployState) { s == DeploySucceeded || s == DeployFailed }

  class DeploymentRow {
    var state: DeployState
    var startedAt: Option<nat>
    var completedAt: Option<nat>

    constructor ()
      ensures state == DeployPending && startedAt == None && completedAt == None
    {
      state, startedAt, completedAt := DeployPending, None, None;
    }

    method Transition(target: DeployState, now: nat) returns (ok: bool)
      modifies this
      ensures ok == Allowed(old(state), target)
      ensures !ok ==> state == old(state) && startedAt == old(startedAt) && completedAt == old(completedAt)
      ensures ok ==> state == target && startedAt == (if old(startedAt).None? then Some(now) else old(startedAt))
      ensures ok ==> completedAt == if Ended(target) then Some(now) else old(completedAt)
    {
      if !Allowed(state, target) {
        return false;
      }
      if startedAt == None && target != DeployPending {
        startedAt := Some(now);
      }
      state := target;
      if Ended(target) {
        completedAt := Some(now);
      }
      return true;
    }
  }

  /** What is done on the server. */
  datatype Op = WaitForSsh | Bootstrap | Inspect | Install | Confirm | RollBack

  /** Whether each remote operation succeeds, and whether the caller's callback accepts each state. */
  datatype Answers = Answers(
    ssh: bool, bootstrap: bool, present: bool, install: bool, confirm: bool, accepts: DeployState -> bool)

  /** The states still ahead, which a simulated deployment just walks. */
  function Remaining(s: DeployState): seq<DeployState> {
    match s
    case DeployPending => [WaitingSsh, Bootstrapping, Installing, DeployVerifying, DeploySucceeded]
    case WaitingSsh => [Bootstrapping, Installing, DeployVerifying, DeploySucceeded]
    case Bootstrapping => [Installing, DeployVerifying, DeploySucceeded]
    case Installing => [DeployVerifying, DeploySucceeded]
    case DeployVerifying => [DeploySucceeded]
    case _ => []
  }

  predicate MayHaveInstalled(s: DeployState) { s == Installing || s == DeployVerifying || s == DeploySucceeded }

  /** Everything one call leaves behind. */
  datatype Outcome = Outcome(ok: bool, state: DeployState, walked: seq<DeployState>, done: seq<Op>)

  /** The operation that leads out of a state, and whether it succeeds. */
  function Effort(s: DeployState, a: Answers): (seq<Op>, bool) {
    match s
    case DeployPending => ([], true)
    case WaitingSsh => ([WaitForSsh], a.ssh)
    case Bootstrapping => ([Bootstrap], a.bootstrap)
    case Installing => if a.present then ([Inspect], true) else ([Inspect, Install], a.install)
    case DeployVerifying => ([Confirm], a.confirm)
    case DeploySucceeded => ([Confirm], a.confirm)
    case DeployFailed => ([], false)
  }

  /** The failure path from a state; a callback that refuses the failed state cuts it short. */
  function GivenUp(s: DeployState, touched: bool, a: Answers): Outcome {
    var state := if Ended(s) then s else DeployFailed;
    Outcome(false, state, if Ended(s) then [] else [DeployFailed], if a.accepts(state) && touched then [RollBack] else [])
  }

  /** Transitions still ahead. */
  function Ahead(s: DeployState): nat { |Remaining(s)| }

  function Prefixed(walked: seq<DeployState>, done: seq<Op>, o: Outcome): Outcome {
    o.(walked := walked + o.walked, done := done + o.done)
  }

  predicate Touches(touched: bool, s: DeployState) { touched || s == Installing }

  /** The call from state s on; `touched` says whether an installation may exist. */
  function Deployed(s: DeployState, touched: bool, a: Answers): Outcome
    decreases Ahead(s)
  {
    var (ops, ok) := Effort(s, a);
    var next := Worker.NextDeployState(s);
    if !ok then Prefixed([], ops, GivenUp(s, Touches(touched, s), a))
    else if s == DeploySucceeded then Outcome(true, s, [], ops)
    else if !a.accepts(next) then Prefixed([next], ops, GivenUp(next, Touches(touched, s), a))
    else if next == DeploySucceeded then Outcome(true, next, [next], ops)
    else Prefixed([next], ops, Deployed(next, Touches(touched, s), a))
  }

  /** The state is not past the one an operation belongs to. */
  predicate UpTo(s: DeployState, last: DeployState) { s == last || last in Remaining(s) }

  /** What a call from state s needs of the server and of the caller's callback. */
  predicate GoesThrough(s: DeployState, a: Answers) {
    && s != DeployFailed && (forall t :: t in Remaining(s) ==> a.accepts(t))
    && (UpTo(s, WaitingSsh) ==> a.ssh) && (UpTo(s, Bootstrapping) ==> a.bootstrap)
    && (UpTo(s, Installing) ==> a.present || a.install) && a.confirm
  }

  /** The operations a call from state s has to do, in order. */
  function Work(s: DeployState, present: bool): seq<Op> {
    (if UpTo(s, WaitingSsh) then [WaitForSsh] else []) + (if UpTo(s, Bootstrapping) then [Bootstrap] else [])
    + (if UpTo(s, Installing) then [Inspect] + (if present then [] else [Install]) else []) + [Confirm]
  }

  lemma PrefixedTwice(w1: seq<DeployState>, d1: seq<Op>, w2: seq<DeployState>, d2: seq<Op>, o: Outcome)
    ensures Prefixed(w1, d1, Prefixed(w2, d2, o)) == Prefixed(w1 + w2, d1 + d2, o)
  {
    assert w1 + (w2 + o.walked) == (w1 + w2) + o.walked && d1 + (d2 + o.done) == (d1 + d2) + o.done;
  }

  /** What has been walked and done so far, followed by what is due, is the whole call. */
  predicate Due(whole: Outcome, walked: seq<DeployState>, done: seq<Op>, s: DeployState, good: bool, touched: bool, a: Answers) {
    whole == Prefixed(walked, done, if good then Deployed(s, touched, a) else GivenUp(s, touched, a))
  }

  predicate Early(s: DeployState) { s == DeployPending || s == WaitingSsh || s == Bootstrapping || s == Installing }

  lemma StillDue(whole: Outcome, walked: seq<DeployState>, done: seq<Op>, s: DeployState, touched: bool, a: Answers)
    requires Early(s) && Due(whole, walked, done, s, true, touched, a)
    ensures var (ops, ok) := Effort(s, a);
            var next := Worker.NextDeployState(s);
            if ok then Due(whole, walked + [next], done + ops, next, a.accepts(next), Touches(touched, s), a)
            else Due(whole, walked, done + ops, s, false, Touches(touched, s), a)
  {
    hide GivenUp;
    var (ops, ok) := Effort(s, a);
    var next := Worker.NextDeployState(s);
    var dirty := Touches(touched, s);
    if !ok {
      PrefixedTwice(walked, done, [], ops, GivenUp(s, dirty, a));
      assert walked + [] == walked;
    } else {
      PrefixedTwice(walked, done, [next], ops, if a.accepts(next) then Deployed(next, dirty, a) else GivenUp(next, dirty, a));
    }
  }

  lemma NothingDoneYet(s: DeployState, touched: bool, a: Answers)
    requires touched == MayHaveInstalled(s)
    ensures Due(Deployed(s, touched, a), [], [], s, s != DeployFailed, touched, a)
  {
    var o := if s != DeployFailed then Deployed(s, touched, a) else GivenUp(s, touched, a);
    assert [] + o.walked == o.walked && [] + o.done == o.done;
  }

  lemma PathGoesOn(s: DeployState)
    requires Remaining(s) != []
    ensures Allowed(s, Remaining(s)[0]) && Remaining(Remaining(s)[0]) == Remaining(s)[1..] && Remaining(s)[0] != DeployFailed
  {
  }

  lemma EndOfPath(s: DeployState)
    ensures Remaining(s) == [] ==> s == DeploySucceeded || s == DeployFailed
  {
  }

  class Deployer {
    var row: DeploymentRow
    var done: seq<Op>
    var walked: seq<DeployState>

    constructor (row: DeploymentRow)
      ensures this.row == row && done == [] && walked == []
    {
      this.row, done, walked := row, [], [];
    }

    /** One transition and the callback that renews the lease and commits. */
    method Move(target: DeployState, a: Answers, now: nat) returns (ok: bool)
      requires Allowed(row.state, target)
      modifies row, this`walked
      ensures row.state == target && walked == old(walked) + [target] && ok == a.accepts(target)
    {
      var moved := row.Transition(target, now);
      walked := walked + [target];
      return a.accepts(target);
    }

    /** The operation that leads out of the present state, and the transition when it succeeds. */
    method Advance(ghost whole: Outcome, touched: bool, a: Answers, now: nat) returns (ok: bool)
      requires Early(row.state) && Due(whole, walked, done, row.state, true, touched, a)
      modifies row, this`walked, this`done
      ensures Due(whole, walked, done, row.state, ok, Touches(touched, old(row.state)), a)
      ensures ok ==> row.state == Worker.NextDeployState(old(row.state))
    {
      StillDue(whole, walked, done, row.state, touched, a);
      hide Due;
      ok := true;
      if row.state == WaitingSsh {
        done := done + [WaitForSsh];
        ok := a.ssh;
      } else if row.state == Bootstrapping {
        done := done + [Bootstrap];
        ok := a.bootstrap;
      } else if row.state == Installing {
        ghost var before := done;
        done := done + [Inspect];
        if !a.present {
          done := done + [Install];
          ok := a.install;
        }
        assert done == before + Effort(Installing, a).0;
      } else {
        assert done + [] == done;
      }
      if ok {
        ok := Move(Worker.NextDeployState(row.state), a, now);
      }
    }

    /** Resumes from the persisted state and runs to success or to the failure path. */
    method Deploy(a: Answers, now: nat) returns (ok: bool)
      requires done == [] && walked == []
      modifies this`done, this`walked, row
      ensures Outcome(ok, row.state, walked, done) == Deployed(old(row.state), MayHaveInstalled(old(row.state)), a)
      ensures ok <==> GoesThrough(old(row.state), a)
      ensures ok ==> done == Work(old(row.state), a.present)
    {
      ghost var whole := Deployed(row.state, MayHaveInstalled(row.state), a);
      var touched := row.state in {Installing, DeployVerifying, DeploySucceeded};
      ok := row.state != DeployFailed;
      NothingDoneYet(row.state, touched, a);
      SucceedsExactly(row.state, touched, a);
      hide Due, GoesThrough, Work;
      if ok && row.state == DeployPending {
        ok := Advance(whole, touched, a, now);
      }
      if ok && row.state == WaitingSsh {
        ok := Advance(whole, touched, a, now);
      }
      if ok && row.state == Bootstrapping {
        ok := Advance(whole, touched, a, now);
      }
      if ok && row.state == Installing {
        ok := Advance(whole, touched, a, now);
        touched := true;
      }
      ok := Finish(whole, ok, touched, a, now);
    }

    /** The verification at the end, or the failure path. */
    method Finish(ghost whole: Outcome, good: bool, touched: bool, a: Answers, now: nat) returns (ok: bool)
      requires Due(whole, walked, done, row.state, good, touched, a)
      requires good ==> row.state == DeployVerifying || row.state == DeploySucceeded
      modifies this`done, this`walked, row
      ensures Outcome(ok, row.state, walked, done) == whole
    {
      ok := good;
      if ok {
        done := done + [Confirm];
        ok := a.confirm;
        if ok && row.state == DeployVerifying {
          ok := Move(DeploySucceeded, a, now);
        }
      }
      if !ok {
        var accepted := true;
        if row.state != DeploySucceeded && row.state != DeployFailed {
          accepted := Move(DeployFailed, a, now);
        } else {
          accepted := a.accepts(row.state);
        }
        if accepted && touched {
          done := done + [RollBack];
        }
      }
    }

    /** A dry run walks the remaining states and touches nothing; a failed deployment stays failed. */
    method SimulateSuccess(now: nat) returns (ok: bool)
      requires walked == []
      modifies this`walked, row
      ensures ok == (old(row.state) != DeployFailed)
      ensures ok ==> row.state == DeploySucceeded && walked == Remaining(old(row.state))
      ensures !ok ==> row.state == DeployFailed && walked == []
    {
      if row.state == DeployFailed {
        return false;
      }
      hide Remaining, Allowed;
      var path := Remaining(row.state);
      var i := 0;
      while i < |path|
        invariant i == |walked| && walked + Remaining(row.state) == path && row.state != DeployFailed
        decreases |path| - i
      {
        ghost var ahead := Remaining(row.state);
        PathGoesOn(row.state);
        assert path[i] == ahead[0];
        var moved := row.Transition(path[i], now);
        assert walked + ahead == (walked + [ahead[0]]) + ahead[1..];
        walked := walked + [path[i]];
        i := i + 1;
      }
      EndOfPath(row.state);
      return true;
    }
  }

  // ---- What the sub-machine promises ----

  /**
   A call succeeds exactly by walking all the states still ahead; a failure ends FAILED unless success was
   reached.
   */
  lemma {:induction false} DeploymentEndsWell(s: DeployState, touched: bool, a: Answers)
    ensures var o := Deployed(s, touched, a);
            && (o.ok ==> o.state == DeploySucceeded)
            && (o.state == DeploySucceeded ==> o.walked == Remaining(s))
            && (o.state == DeploySucceeded || o.state == DeployFailed)
    decreases Ahead(s)
  {
    hide Effort;
    if Early(s) {
      DeploymentEndsWell(Worker.NextDeployState(s), Touches(touched, s), a);
      assert Remaining(s) == [Worker.NextDeployState(s)] + Remaining(Worker.NextDeployState(s));
    }
    assert s == DeployFailed ==> !Effort(s, a).1 by { FailedHasNoWayOut(a); }
  }

  lemma FailedHasNoWayOut(a: Answers)
    ensures !Effort(DeployFailed, a).1
  {
  }

  lemma PathFurther(s: DeployState)
    requires Early(s)
    ensures Remaining(s) == [Worker.NextDeployState(s)] + Remaining(Worker.NextDeployState(s))
  {
  }

  /** One state further, one operation and one acceptance less are needed. */
  lemma NeedsFurther(s: DeployState, a: Answers)
    requires Early(s)
    ensures var next := Worker.NextDeployState(s);
            GoesThrough(s, a) <==> Effort(s, a).1 && a.accepts(next) && GoesThrough(next, a)
  {
    PathFurther(s);
    var next := Worker.NextDeployState(s);
    assert (forall t :: t in Remaining(s) ==> a.accepts(t)) <==>
           a.accepts(next) && forall t :: t in Remaining(next) ==> a.accepts(t);
  }

  lemma WorkFurther(s: DeployState, a: Answers)
    requires Early(s)
    ensures Work(s, a.present) == Effort(s, a).0 + Work(Worker.NextDeployState(s), a.present)
  {
    match s {
      case DeployPending =>
      case WaitingSsh =>
      case Bootstrapping =>
      case Installing =>
    }
  }

  /** What a call from an early state leaves, one state at a time. */
  lemma Unfolded(s: DeployState, touched: bool, a: Answers)
    requires Early(s)
    ensures var (ops, ok) := Effort(s, a);
            var next := Worker.NextDeployState(s);
            Deployed(s, touched, a) ==
            if !ok then Prefixed([], ops, GivenUp(s, Touches(touched, s), a))
            else Prefixed([next], ops, if a.accepts(next) then Deployed(next, Touches(touched, s), a)
                                       else GivenUp(next, Touches(touched, s), a))
  {
    hide Prefixed, GivenUp, Effort;
  }

  /**
   A call succeeds exactly when every operation still ahead succeeds and every state still ahead is
   accepted; then it has done exactly those operations, in order.
   */
  lemma {:induction false} SucceedsExactly(s: DeployState, touched: bool, a: Answers)
    ensures Deployed(s, touched, a).ok <==> GoesThrough(s, a)
    ensures Deployed(s, touched, a).ok ==> Deployed(s, touched, a).done == Work(s, a.present)
    decreases Ahead(s)
  {
    if Early(s) {
      hide GoesThrough, Work, Effort, Deployed;
      NeedsFurther(s, a);
      WorkFurther(s, a);
      Unfolded(s, touched, a);
      SucceedsExactly(Worker.NextDeployState(s), Touches(touched, s), a);
    } else {
      LastStates(s, touched, a);
    }
  }

  lemma LastStates(s: DeployState, touched: bool, a: Answers)
    requires !Early(s)
    ensures Deployed(s, touched, a).ok <==> GoesThrough(s, a)
    ensures Deployed(s, touched, a).ok ==> Deployed(s, touched, a).done == Work(s, a.present)
  {
    match s {
      case DeployVerifying =>
      case DeploySucceeded =>
      case DeployFailed =>
    }
  }

  /** The call has walked a part of the way and then given up. */
  ghost predicate StoppedShort(s: DeployState, walked: seq<DeployState>) {
    exists m :: 0 <= m < |Remaining(s)| && walked == Remaining(s)[..m] + [DeployFailed]
  }

  lemma StoppedFurther(s: DeployState, walked: seq<DeployState>)
    requires Early(s)
    ensures StoppedShort(s, [DeployFailed]) && StoppedShort(s, [Worker.NextDeployState(s), DeployFailed])
    ensures StoppedShort(Worker.NextDeployState(s), walked) ==> StoppedShort(s, [Worker.NextDeployState(s)] + walked)
  {
    var next := Worker.NextDeployState(s);
    PathFurther(s);
    hide Worker.NextDeployState;
    assert [DeployFailed] == Remaining(s)[..0] + [DeployFailed];
    assert [next, DeployFailed] == Remaining(s)[..1] + [DeployFailed];
    if StoppedShort(next, walked) {
      var m :| 0 <= m < |Remaining(next)| && walked == Remaining(next)[..m] + [DeployFailed];
      assert [next] + walked == Remaining(s)[..m + 1] + [DeployFailed];
    }
  }

  /** A call that ends FAILED has walked a part of the way before that. */
  lemma {:induction false} FailureStopsShort(s: DeployState, touched: bool, a: Answers)
    requires s != DeployFailed && Deployed(s, touched, a).state == DeployFailed
    ensures StoppedShort(s, Deployed(s, touched, a).walked)
    decreases Ahead(s)
  {
    if Early(s) {
      hide Effort, Deployed, StoppedShort, Remaining;
      var next := Worker.NextDeployState(s);
      Unfolded(s, touched, a);
      if Effort(s, a).1 && a.accepts(next) {
        PathFurther(s);
        FailureStopsShort(next, Touches(touched, s), a);
        StoppedFurther(s, Deployed(next, Touches(touched, s), a).walked);
      } else {
        StoppedFurther(s, []);
      }
    } else {
      assert Deployed(s, touched, a).walked == Remaining(s)[..0] + [DeployFailed];
    }
  }

  /** Nothing is installed over an installation that is found, nor once the state says it was installed. */
  lemma {:induction false} InstallationsAreCareful(s: DeployState, touched: bool, a: Answers)
    ensures Install in Deployed(s, touched, a).done ==> !a.present && (s == Installing || !MayHaveInstalled(s))
    decreases Ahead(s)
  {
    if Early(s) {
      InstallationsAreCareful(Worker.NextDeployState(s), Touches(touched, s), a);
    }
  }

  /**
   A call rolls back exactly when it fails after an installation may exist and its failure could be recorded.
   */
  lemma {:induction false} RollsBackExactly(s: DeployState, touched: bool, a: Answers)
    ensures var o := Deployed(s, touched, a);
            RollBack in o.done <==> !o.ok && (touched || Inspect in o.done) && a.accepts(o.state)
    decreases Ahead(s)
  {
    if Early(s) {
      RollsBackExactly(Worker.NextDeployState(s), Touches(touched, s), a);
    }
  }

  /**
   A crash after any transition loses nothing: what was walked and what is still ahead make the same path.
   */
  lemma ResumesWhereItStopped(s: DeployState, k: nat)
    requires 1 <= k <= |Remaining(s)|
    ensures Remaining(s) == Remaining(s)[..k] + Remaining(Remaining(s)[k - 1])
    ensures Remaining(s)[0] == Worker.NextDeployState(s) && Allowed(s, Worker.NextDeployState(s))
  {
    var next := Remaining(s)[k - 1];
    assert Remaining(s)[k..] == Remaining(next);
  }
}
