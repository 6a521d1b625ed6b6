/** Multi-round verification of a candidate address before it may replace a node. */
module Consensus {
  import opened Types

  /** What one round saw: the verdict from outside, and the Iran verdict where it was asked for. */
  datatype Round = Round(external: Decision, iran: Decision)

  datatype RoundKind = Clean | Filtered | ExternalUnavailable | Inconclusive

  /** The Iran verdict counts only when the candidate is reachable from outside. */
  function Classify(r: Round): RoundKind {
    match r.external
    case Reachable =>
      (match r.iran
       case Reachable => Clean
       case Unreachable => Filtered
       case Indeterminate => Inconclusive)
    case Unreachable => ExternalUnavailable
    case Indeterminate => Inconclusive
  }

  function Tally(rounds: seq<Round>, kind: RoundKind): nat {
    if rounds == [] then 0
    else Tally(rounds[..|rounds| - 1], kind) + if Classify(rounds[|rounds| - 1]) == kind then 1 else 0
  }

  /** The verdict after all rounds. */
  function Verdict(rounds: seq<Round>, required: nat): Decision {
    if Tally(rounds, Clean) >= required then Reachable
    else if Tally(rounds, Filtered) >= required then Unreachable
    else Indeterminate
  }

  /**
   Runs the rounds in order, keeping the four counters the payload reports. The observations
   are the answers the probing service gives; the Iran answer is looked at only when the external
   one is REACHABLE.
   */
  method VerifyCandidate(observed: seq<Round>, required: nat)
    returns (d: Decision, clean: nat, filtered: nat, unavailable: nat, inconclusive: nat)
    ensures d == Verdict(observed, required)
    ensures clean == Tally(observed, Clean) && filtered == Tally(observed, Filtered)
    ensures unavailable == Tally(observed, ExternalUnavailable)
    ensures inconclusive == Tally(observed, Inconclusive)
    ensures clean + filtered + unavailable + inconclusive == |observed|
  {
    clean, filtered, unavailable, inconclusive := 0, 0, 0, 0;
    var n := 0;
    while n < |observed|
      invariant 0 <= n <= |observed|
      invariant clean == Tally(observed[..n], Clean)
      invariant filtered == Tally(observed[..n], Filtered)
      invariant unavailable == Tally(observed[..n], ExternalUnavailable)
      invariant inconclusive == Tally(observed[..n], Inconclusive)
      invariant clean + filtered + unavailable + inconclusive == n
    {
      var external := observed[n].external;
      if external == Reachable {
        var iran := observed[n].iran;
        if iran == Reachable {
          clean := clean + 1;
        } else if iran == Unreachable {
          filtered := filtered + 1;
        } else {
          inconclusive := inconclusive + 1;
        }
      } else if external == Unreachable {
        unavailable := unavailable + 1;
      } else {
        inconclusive := inconclusive + 1;
      }
      assert observed[..n + 1][..n] == observed[..n];
      n := n + 1;
    }
    assert observed[..n] == observed;
    if clean >= required {
      d := Reachable;
    } else if filtered >= required {
      d := Unreachable;
    } else {
      d := Indeterminate;
    }
  }

  /** How often a multiset of rounds classifies as each kind. */
  function Multiplicity(ms: multiset<Round>, kind: RoundKind): nat {
    match kind
    case Clean => ms[Round(Reachable, Reachable)]
    case Filtered => ms[Round(Reachable, Unreachable)]
    case ExternalUnavailable =>
      ms[Round(Unreachable, Reachable)] + ms[Round(Unreachable, Unreachable)]
      + ms[Round(Unreachable, Indeterminate)]
    case Inconclusive =>
      ms[Round(Reachable, Indeterminate)] + ms[Round(Indeterminate, Reachable)]
      + ms[Round(Indeterminate, Unreachable)] + ms[Round(Indeterminate, Indeterminate)]
  }

  lemma {:induction false} TallyIsMultiplicity(rounds: seq<Round>, kind: RoundKind)
    ensures Tally(rounds, kind) == Multiplicity(multiset(rounds), kind)
  {
    if rounds != [] {
      var front, last := rounds[..|rounds| - 1], rounds[|rounds| - 1];
      assert rounds == front + [last];
      assert multiset(rounds) == multiset(front) + multiset{last};
      TallyIsMultiplicity(front, kind);
      match last {
        case Round(Reachable, Reachable) =>
        case Round(Reachable, Unreachable) =>
        case Round(Reachable, Indeterminate) =>
        case Round(Unreachable, Reachable) =>
        case Round(Unreachable, Unreachable) =>
        case Round(Unreachable, Indeterminate) =>
        case Round(Indeterminate, Reachable) =>
        case Round(Indeterminate, Unreachable) =>
        case Round(Indeterminate, Indeterminate) =>
      }
    }
  }

  /** Every counter, and so the verdict, depends only on the multiset of rounds. */
  lemma VerdictIsOrderFree(a: seq<Round>, b: seq<Round>, required: nat)
    requires multiset(a) == multiset(b)
    ensures Verdict(a, required) == Verdict(b, required)
    ensures forall kind :: Tally(a, kind) == Tally(b, kind)
  {
    forall kind ensures Tally(a, kind) == Tally(b, kind) {
      TallyIsMultiplicity(a, kind);
      TallyIsMultiplicity(b, kind);
    }
  }

  /** The indices of the rounds that saw the candidate from outside and a definite Iran failure. */
  function FilteredRounds(rounds: seq<Round>): set<nat> {
    set i: nat | i < |rounds| && rounds[i] == Round(Reachable, Unreachable)
  }

  function CleanRounds(rounds: seq<Round>): set<nat> {
    set i: nat | i < |rounds| && rounds[i] == Round(Reachable, Reachable)
  }

  lemma {:induction false} TalliesCountRounds(rounds: seq<Round>)
    ensures Tally(rounds, Filtered) == |FilteredRounds(rounds)|
    ensures Tally(rounds, Clean) == |CleanRounds(rounds)|
  {
    if rounds != [] {
      var n: nat := |rounds| - 1;
      var front := rounds[..n];
      TalliesCountRounds(front);
      assert FilteredRounds(rounds) ==
             FilteredRounds(front) + if rounds[n] == Round(Reachable, Unreachable) then {n} else {};
      assert CleanRounds(rounds) ==
             CleanRounds(front) + if rounds[n] == Round(Reachable, Reachable) then {n} else {};
    }
  }

  /**
   A candidate is rejected exactly when at least `required` rounds saw it from outside with a
   definite Iran failure and fewer than `required` rounds were clean.
   */
  lemma RejectionNeedsConsensus(rounds: seq<Round>, required: nat)
    ensures Verdict(rounds, required) == Unreachable <==>
            |FilteredRounds(rounds)| >= required && |CleanRounds(rounds)| < required
    ensures Verdict(rounds, required) == Reachable <==> |CleanRounds(rounds)| >= required
  {
    TalliesCountRounds(rounds);
  }
}
