/** The quorum verdict over one round of reachability probes. */
module Quorum {
  import opened Types

  datatype Probe = ProbeSuccess | ProbeFailure | ProbePending | ProbeMalformed

  function Count(probes: seq<Probe>, p: Probe): nat {
    multiset(probes)[p]
  }

  /** The decision from the probe counts; the source raises when the quorum is below one. */
  function Evaluate(probes: seq<Probe>, minSuccess: nat): Decision
    requires minSuccess >= 1
  {
    if |probes| < minSuccess then Indeterminate
    else if Count(probes, ProbeSuccess) >= minSuccess then Reachable
    else if |probes| - Count(probes, ProbeFailure) < minSuccess then Unreachable
    else Indeterminate
  }

  predicate Definite(p: Probe) {
    p == ProbeSuccess || p == ProbeFailure
  }

  /** q gives every pending or malformed probe of p a definite outcome and keeps the rest. */
  ghost predicate Resolves(q: seq<Probe>, p: seq<Probe>) {
    |q| == |p| && forall i :: 0 <= i < |p| ==> Definite(q[i]) && (Definite(p[i]) ==> q[i] == p[i])
  }

  /** The resolution that answers every open probe with the same outcome. */
  function Fill(probes: seq<Probe>, answer: Probe): (q: seq<Probe>)
    requires Definite(answer)
    ensures Resolves(q, probes)
  {
    if probes == [] then []
    else [if Definite(probes[0]) then probes[0] else answer] + Fill(probes[1..], answer)
  }

  lemma {:induction false} CountsAddUp(probes: seq<Probe>)
    ensures |probes| == Count(probes, ProbeSuccess) + Count(probes, ProbeFailure)
                        + Count(probes, ProbePending) + Count(probes, ProbeMalformed)
  {
    if probes != [] {
      assert probes == [probes[0]] + probes[1..];
      assert multiset(probes) == multiset{probes[0]} + multiset(probes[1..]);
      CountsAddUp(probes[1..]);
      match probes[0] {
        case ProbeSuccess =>
        case ProbeFailure =>
        case ProbePending =>
        case ProbeMalformed =>
      }
    }
  }

  lemma {:induction false} FillCounts(probes: seq<Probe>)
    ensures Count(Fill(probes, ProbeFailure), ProbeSuccess) == Count(probes, ProbeSuccess)
    ensures Count(Fill(probes, ProbeSuccess), ProbeSuccess) == |probes| - Count(probes, ProbeFailure)
  {
    if probes != [] {
      var rest := probes[1..];
      assert probes == [probes[0]] + rest;
      FillCounts(rest);
      assert Fill(probes, ProbeFailure) ==
             [if Definite(probes[0]) then probes[0] else ProbeFailure] + Fill(rest, ProbeFailure);
      assert Fill(probes, ProbeSuccess) ==
             [if Definite(probes[0]) then probes[0] else ProbeSuccess] + Fill(rest, ProbeSuccess);
    }
  }

  /** Every resolution has at least the sure successes and at most those still possible. */
  lemma {:induction false} ResolutionBounds(q: seq<Probe>, p: seq<Probe>)
    requires Resolves(q, p)
    ensures Count(p, ProbeSuccess) <= Count(q, ProbeSuccess) <= |p| - Count(p, ProbeFailure)
    ensures Count(q, ProbeFailure) == |q| - Count(q, ProbeSuccess)
  {
    if p != [] {
      assert p == [p[0]] + p[1..] && q == [q[0]] + q[1..];
      assert Resolves(q[1..], p[1..]);
      ResolutionBounds(q[1..], p[1..]);
    }
  }

  /** A fully answered round never stays open once it has enough probes. */
  lemma AnsweredIsDefinite(q: seq<Probe>, p: seq<Probe>, minSuccess: nat)
    requires Resolves(q, p) && |p| >= minSuccess >= 1
    ensures Evaluate(q, minSuccess) == if Count(q, ProbeSuccess) >= minSuccess then Reachable else Unreachable
  {
    ResolutionBounds(q, p);
  }

  /**
   The verdict is exact three-valued logic: it is REACHABLE (UNREACHABLE) iff every way of
   answering the open probes gives that verdict, and INDETERMINATE iff both remain possible.
   */
  lemma QuorumIsExact(p: seq<Probe>, minSuccess: nat)
    requires |p| >= minSuccess >= 1
    ensures Evaluate(p, minSuccess) == Reachable <==>
            forall q :: Resolves(q, p) ==> Evaluate(q, minSuccess) == Reachable
    ensures Evaluate(p, minSuccess) == Unreachable <==>
            forall q :: Resolves(q, p) ==> Evaluate(q, minSuccess) == Unreachable
    ensures Evaluate(p, minSuccess) == Indeterminate <==>
            (exists q :: Resolves(q, p) && Evaluate(q, minSuccess) == Reachable)
            && (exists q :: Resolves(q, p) && Evaluate(q, minSuccess) == Unreachable)
  {
    var worst, best := Fill(p, ProbeFailure), Fill(p, ProbeSuccess);
    FillCounts(p);
    CountsAddUp(p);
    AnsweredIsDefinite(worst, p, minSuccess);
    AnsweredIsDefinite(best, p, minSuccess);
    forall q | Resolves(q, p)
      ensures Count(p, ProbeSuccess) <= Count(q, ProbeSuccess) <= |p| - Count(p, ProbeFailure)
      ensures Evaluate(q, minSuccess) == if Count(q, ProbeSuccess) >= minSuccess then Reachable else Unreachable
    {
      ResolutionBounds(q, p);
      AnsweredIsDefinite(q, p, minSuccess);
    }
  }

  /** With too few probes the verdict stays open under every answer. */
  lemma TooFewProbesStayOpen(p: seq<Probe>, q: seq<Probe>, minSuccess: nat)
    requires |p| < minSuccess && Resolves(q, p)
    ensures Evaluate(p, minSuccess) == Indeterminate == Evaluate(q, minSuccess)
  {
  }
}
