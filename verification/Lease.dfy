/**
 The per-job workflow lease. Any number of workers compete for one row; a worker is timely until the
 expiry it last obtained, and this is what lets the protocol model give every job a single worker.
 */
module Lease {
  import opened Types

  type Token = nat

  /** The columns the lease statements read and write; `active` is the job's slot. */
  datatype Row = Row(active: bool, token: Option<Token>, until: Option<nat>)

  predicate Grants(r: Row, token: Token, now: nat) {
    r.active && (r.until.None? || r.until.value <= now || r.token == Some(token))
  }

  function Acquired(r: Row, token: Token, now: nat, until: nat): Row {
    if Grants(r, token, now) then r.(token := Some(token), until := Some(until)) else r
  }

  function Released(r: Row, token: Token): Row {
    if r.token == Some(token) then r.(token := None, until := None) else r
  }

  class LeaseRow {
    var row: Row

    constructor ()
      ensures row == Row(true, None, None)
    {
      row := Row(true, None, None);
    }

    /** One conditional update: the number of rows it matched is the answer. */
    method TryAcquire(token: Token, now: nat, until: nat) returns (ok: bool)
      modifies this
      ensures ok == Grants(old(row), token, now) && row == Acquired(old(row), token, now, until)
    {
      if row.active {
        if row.until == None || row.until.value <= now || row.token == Some(token) {
          row := row.(token := Some(token), until := Some(until));
          return true;
        }
      }
      return false;
    }

    method Release(token: Token)
      modifies this
      ensures row == Released(old(row), token)
    {
      if row.token == Some(token) {
        row := row.(token := None, until := None);
      }
    }
  }

  // ---- Many workers and a clock ----

  /** The row, the clock, and the expiry each worker last obtained and has not given back. */
  datatype World = World(row: Row, clock: nat, held: map<Token, nat>)

  datatype Event =
    | Try(token: Token, seconds: nat)   // acquire or renew
    | GiveBack(token: Token)            // the finally block of a run
    | Vanish(token: Token)              // a crash: the worker is gone, the row stays
    | Finish                            // the job reaches a terminal checkpoint
    | Tick(seconds: nat)

  function Next(w: World, e: Event): World {
    match e
    case Try(t, seconds) =>
      if Grants(w.row, t, w.clock)
      then w.(row := Acquired(w.row, t, w.clock, w.clock + seconds), held := w.held[t := w.clock + seconds])
      else w
    case GiveBack(t) => w.(row := Released(w.row, t), held := w.held - {t})
    case Vanish(t) => w.(held := w.held - {t})
    case Finish => w.(row := w.row.(active := false))
    case Tick(seconds) => w.(clock := w.clock + seconds)
  }

  function After(w: World, es: seq<Event>): World {
    if es == [] then w else Next(After(w, es[..|es| - 1]), es[|es| - 1])
  }

  /** The worker holds a lease that has not expired. */
  predicate Timely(w: World, t: Token) {
    t in w.held && w.clock < w.held[t]
  }

  ghost predicate Sound(w: World) {
    forall t :: Timely(w, t) ==> w.row.token == Some(t) && w.row.until == Some(w.held[t])
  }

  const FRESH := World(Row(true, None, None), 0, map[])

  lemma {:induction false} AlwaysSound(es: seq<Event>)
    ensures Sound(After(FRESH, es))
  {
    if es != [] {
      AlwaysSound(es[..|es| - 1]);
    }
  }

  /** No two workers are timely at once, whatever they try, release, or crash in. */
  lemma TimelyWorkersAreExclusive(es: seq<Event>, t: Token, u: Token)
    requires Timely(After(FRESH, es), t) && Timely(After(FRESH, es), u)
    ensures t == u
  {
    AlwaysSound(es);
  }

  /**
   While one worker is timely nobody else is granted the job, and its own renewal is refused only when the
   job has ended.
   */
  lemma TimelyWorkerKeepsTheJob(es: seq<Event>, t: Token, u: Token)
    requires Timely(After(FRESH, es), t)
    ensures Grants(After(FRESH, es).row, u, After(FRESH, es).clock) <==> u == t && After(FRESH, es).row.active
  {
    AlwaysSound(es);
  }

  /** A release by a worker that does not hold the row changes nothing for the one that does. */
  lemma ForeignReleaseIsNoOp(es: seq<Event>, t: Token, u: Token)
    requires Timely(After(FRESH, es), t) && u != t
    ensures Next(After(FRESH, es), GiveBack(u)).row == After(FRESH, es).row
    ensures Timely(Next(After(FRESH, es), GiveBack(u)), t)
  {
    AlwaysSound(es);
  }

  /**
   After its own worker's release an active job is granted to anybody, and the worker is no longer timely.
   */
  lemma ReleasedIsFree(es: seq<Event>, t: Token, u: Token)
    requires Timely(After(FRESH, es), t)
    ensures var w := Next(After(FRESH, es), GiveBack(t));
            !Timely(w, t) && (Grants(w.row, u, w.clock) <==> After(FRESH, es).row.active)
  {
    AlwaysSound(es);
  }

  /** A finished job is never leased again. */
  lemma {:induction false} FinishedStaysFree(w: World, es: seq<Event>, t: Token)
    requires !w.row.active
    ensures !After(w, es).row.active && !Grants(After(w, es).row, t, After(w, es).clock)
  {
    if es != [] {
      FinishedStaysFree(w, es[..|es| - 1], t);
    }
  }

  predicate Quiet(e: Event) { e.Tick? || e.Vanish? }

  /** After its holder has crashed, an active job is granted to a newcomer exactly from the expiry on. */
  lemma {:induction false} CrashedLeaseExpires(w: World, es: seq<Event>, t: Token, u: Token)
    requires w.row.active && w.row.token == Some(t) && w.row.until.Some? && u != t
    requires forall i :: 0 <= i < |es| ==> Quiet(es[i])
    ensures After(w, es).row == w.row
    ensures Grants(After(w, es).row, u, After(w, es).clock) <==> w.row.until.value <= After(w, es).clock
  {
    if es != [] {
      CrashedLeaseExpires(w, es[..|es| - 1], t, u);
    }
  }

  /**
   A worker that outlives its expiry can be refused while the job is still active: the newcomer is the timely
   one.
   */
  lemma LateWorkerLosesTheJob(t: Token, u: Token, seconds: nat)
    requires t != u && seconds >= 1
    ensures var w := After(FRESH, [Try(t, seconds), Tick(seconds), Try(u, seconds)]);
            w.row.active && !Grants(w.row, t, w.clock) && Timely(w, u) && !Timely(w, t)
  {
    Longer(FRESH, [], Try(t, seconds));
    Longer(FRESH, [Try(t, seconds)], Tick(seconds));
    Longer(FRESH, [Try(t, seconds), Tick(seconds)], Try(u, seconds));
    assert [Try(t, seconds), Tick(seconds)] + [Try(u, seconds)] == [Try(t, seconds), Tick(seconds), Try(u, seconds)];
    assert [Try(t, seconds)] + [Tick(seconds)] == [Try(t, seconds), Tick(seconds)];
    assert [] + [Try(t, seconds)] == [Try(t, seconds)];
  }

  lemma Longer(w: World, es: seq<Event>, e: Event)
    ensures After(w, es + [e]) == Next(After(w, es), e)
  {
    assert (es + [e])[..|es|] == es;
  }

  // ---- Sleeping under a lease ----

  function RenewInterval(leaseSeconds: real): (r: real)
    ensures r >= 1.0 && (leaseSeconds >= 3.0 ==> r <= leaseSeconds / 3.0)
  {
    var third := leaseSeconds / 3.0;
    var capped := if third < 30.0 then third else 30.0;
    if capped > 1.0 then capped else 1.0
  }

  /** A third of the lease, but no less than one second and no more than thirty. */
  lemma RenewsByThirds(leaseSeconds: real)
    ensures var r := RenewInterval(leaseSeconds);
            && (3.0 <= leaseSeconds <= 90.0 ==> 3.0 * r == leaseSeconds)
            && (leaseSeconds < 3.0 ==> r == 1.0) && (leaseSeconds > 90.0 ==> r == 30.0)
  {
  }

  function Sum(xs: seq<real>): real {
    if xs == [] then 0.0 else Sum(xs[..|xs| - 1]) + xs[|xs| - 1]
  }

  lemma OneMoreSlice(slices: seq<real>, slice: real)
    ensures Sum(slices + [slice]) == Sum(slices) + slice
  {
    assert (slices + [slice])[..|slices|] == slices;
  }

  /** A bound on the slices that a rest takes when each but the last is at least a second long. */
  function Turns(remaining: real): nat {
    if remaining <= 0.0 then 0 else remaining.Floor + 1
  }

  lemma OneTurnLess(remaining: real, slice: real, interval: real)
    requires remaining > 0.0 && interval >= 1.0 && slice == (if remaining < interval then remaining else interval)
    ensures Turns(remaining - slice) < Turns(remaining)
  {
  }

  /** All slices have the full length. */
  predicate Full(slices: seq<real>, interval: real) {
    forall i :: 0 <= i < |slices| ==> slices[i] == interval
  }

  /** All but the last slice have the full length, and the last one no more. */
  predicate Regular(slices: seq<real>, interval: real) {
    slices != [] ==> Full(slices[..|slices| - 1], interval) && 0.0 < slices[|slices| - 1] <= interval
  }

  lemma Extended(slices: seq<real>, slice: real, interval: real)
    requires Full(slices, interval) && 0.0 < slice <= interval
    ensures Regular(slices + [slice], interval) && (slice == interval ==> Full(slices + [slice], interval))
    ensures Sum(slices + [slice]) == Sum(slices) + slice
  {
    OneMoreSlice(slices, slice);
  }

  /** The first n answers are all as given. */
  predicate Always(answers: nat -> bool, n: nat, given: bool) {
    forall i: nat :: i < n ==> answers(i) == given
  }

  lemma AlwaysMore(answers: nat -> bool, n: nat, given: bool)
    requires Always(answers, n, given) && answers(n) == given
    ensures Always(answers, n + 1, given)
  {
  }

  datatype SleepEnd = Slept | Paused | LeaseLost

  /**
   Sleeps in slices, with a look at the pause switch before each and a renewal after each. `paused`
   and `granted` say what the looks and the renewals will find. No slice is longer than a third of a
   lease of three seconds or more, so such a lease never runs out in a sleep.
   */
  method SleepWithLease(seconds: real, leaseSeconds: real, paused: nat -> bool, granted: nat -> bool)
    returns (slices: seq<real>, end: SleepEnd)
    ensures Regular(slices, RenewInterval(leaseSeconds))
    ensures Always(paused, |slices|, false) && (slices != [] ==> Always(granted, |slices| - 1, true))
    ensures end == Slept <==>
            Sum(slices) == (if seconds > 0.0 then seconds else 0.0) && (slices != [] ==> granted(|slices| - 1))
    ensures end == Paused ==> paused(|slices|) && Sum(slices) < seconds && (slices != [] ==> granted(|slices| - 1))
    ensures end == LeaseLost ==> slices != [] && !granted(|slices| - 1)
  {
    slices := [];
    assert Sum(slices) == 0.0;
    var interval := RenewInterval(leaseSeconds);
    assert Full(slices, interval) && Regular(slices, interval) && Always(paused, 0, false) && Always(granted, 0, true);
    hide Sum, RenewInterval, Turns, Full, Regular, Always;
    if seconds <= 0.0 {
      return slices, Slept;
    }
    var remaining := seconds;
    while remaining > 0.0
      invariant 0.0 <= remaining && Sum(slices) + remaining == seconds
      invariant Always(paused, |slices|, false) && Always(granted, |slices|, true)
      invariant slices != [] ==> granted(|slices| - 1)
      invariant Regular(slices, interval) && (remaining > 0.0 ==> Full(slices, interval))
      decreases Turns(remaining)
    {
      if paused(|slices|) {
        return slices, Paused;
      }
      var slice := if remaining < interval then remaining else interval;
      Extended(slices, slice, interval);
      AlwaysMore(paused, |slices|, false);
      OneTurnLess(remaining, slice, interval);
      slices := slices + [slice];
      remaining := remaining - slice;
      if !granted(|slices| - 1) {
        return slices, LeaseLost;
      }
      AlwaysMore(granted, |slices| - 1, true);
    }
    end := Slept;
  }
}
