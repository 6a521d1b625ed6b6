/** Cloud adapters: who gets a live one, the in-memory simulation, and the policy in front of a create. */
module Providers {
  import opened Types
  import Worker

  type ProviderId = nat

  datatype Kind = Hetzner | Linode

  /** The host's own switches, which no stored setting can loosen. */
  datatype Settings = Settings(dryRun: bool, allowMutation: bool, emergencyStop: bool)

  datatype Mode = DryRunMode | LiveMode

  function LiveCapable(s: Settings): bool {
    !s.dryRun && s.allowMutation && !s.emergencyStop
  }

  /** Whether a job admitted now is a dry run; an unset or unreadable mode means dry. */
  function EffectiveDryRun(s: Settings, stored: Option<Mode>): bool {
    if !LiveCapable(s) then true
    else match stored
      case Some(LiveMode) => false
      case _ => true
  }

  datatype Adapter = SimulatedAdapter(kind: Kind) | LiveAdapter(kind: Kind)

  /** The gates of the factory, in order. */
  function Create(s: Settings, kind: Kind, dryRun: Option<bool>): Result<Adapter> {
    var effective := if dryRun.None? then s.dryRun else dryRun.value;
    if s.dryRun || effective then Success(SimulatedAdapter(kind))
    else if !s.allowMutation then Failure
    else if s.emergencyStop then Failure
    else Success(LiveAdapter(kind))
  }

  /** A live adapter is made exactly on a live-capable host for a caller that does not ask for a dry run. */
  lemma LiveExactly(s: Settings, kind: Kind, dryRun: Option<bool>, stored: Option<Mode>)
    ensures Create(s, kind, dryRun) == Success(LiveAdapter(kind)) <==> LiveCapable(s) && dryRun != Some(true)
    ensures Create(s, kind, dryRun) == Success(SimulatedAdapter(kind)) <==> s.dryRun || dryRun == Some(true)
    ensures EffectiveDryRun(s, stored) ==> Create(s, kind, Some(true)) == Success(SimulatedAdapter(kind))
    ensures !EffectiveDryRun(s, stored) <==>
            !s.dryRun && s.allowMutation && !s.emergencyStop && stored == Some(LiveMode)
    ensures !EffectiveDryRun(s, stored) ==> Create(s, kind, Some(false)) == Success(LiveAdapter(kind))
  {
  }

  /** Adapters are kept per provider and execution mode. */
  class ProviderManager {
    const settings: Settings
    var adapters: map<(ProviderId, bool), Adapter>

    constructor (settings: Settings)
      ensures this.settings == settings && adapters == map[] && Valid()
    {
      this.settings, adapters := settings, map[];
    }

    /**
     A slot for dry runs never holds a live adapter, nor does any slot of a host that is not live-capable.
     */
    ghost predicate Valid()
      reads this
    {
      forall key :: key in adapters && adapters[key].LiveAdapter? ==> !key.1 && LiveCapable(settings)
    }

    method Get(provider: ProviderId, kind: Kind, dryRun: Option<bool>) returns (r: Result<Adapter>)
      requires Valid()
      modifies this
      ensures Valid()
      ensures var key := (provider, if dryRun.None? then settings.dryRun else dryRun.value);
              && r == (if key in old(adapters) then Success(old(adapters)[key]) else Create(settings, kind, Some(key.1)))
              && adapters == (if r.Success? then old(adapters)[key := r.value] else old(adapters))
      ensures dryRun == Some(true) ==> r.Success? && r.value.SimulatedAdapter?
    {
      var effective := if dryRun.None? then settings.dryRun else dryRun.value;
      var key := (provider, effective);
      if key in adapters {
        assert adapters[key := adapters[key]] == adapters;
        return Success(adapters[key]);
      }
      r := Create(settings, kind, Some(effective));
      if r.Success? {
        adapters := adapters[key := r.value];
      }
    }

    /** Empties the cache and then closes every adapter that was in it. */
    method Close() returns (closed: set<(ProviderId, bool)>)
      modifies this
      ensures Valid() && adapters == map[] && closed == old(adapters.Keys)
    {
      var open := adapters.Keys;
      adapters := map[];
      closed := {};
      while open != {}
        invariant closed + open == old(adapters.Keys)
        decreases |open|
      {
        var key :| key in open;
        closed := closed + {key};
        open := open - {key};
      }
    }
  }

  // ---- The in-memory simulation ----

  /** The hash of kind, name and number of servers; taken to be free of collisions. */
  datatype ServerKey = ServerKey(kind: Kind, name: string, count: nat)

  datatype Simulated = Simulated(name: string, deleted: bool, octet: nat)

  class DryRunProvider {
    const kind: Kind
    var servers: map<ServerKey, Simulated>

    constructor (kind: Kind)
      ensures this.kind == kind && servers == map[] && Valid()
    {
      this.kind, servers := kind, map[];
    }

    /** Server numbers count up, so a new server never replaces one. */
    ghost predicate Valid()
      reads this
    {
      forall key :: key in servers ==> key.count < |servers| && servers[key].name == key.name && 10 <= servers[key].octet <= 209
    }

    /** Everything ever created under a name. */
    ghost function Everyone(name: string): set<ServerKey>
      reads this
    {
      set key | key in servers && servers[key].name == name
    }

    ghost function Living(name: string): set<ServerKey>
      reads this
    {
      set key | key in servers && servers[key].name == name && !servers[key].deleted
    }

    method CreateServer(name: string) returns (key: ServerKey)
      requires Valid()
      modifies this
      ensures Valid() && key !in old(servers) && servers == old(servers)[key := Simulated(name, false, 10 + |old(servers)| % 200)]
      ensures Living(name) == old(Living(name)) + {key}
    {
      key := ServerKey(kind, name, |servers|);
      servers := servers[key := Simulated(name, false, 10 + |servers| % 200)];
    }

    /**
     A server once created stays readable under the name it was asked for; it is among the living of
     that name, which the lookup by name sees, exactly until it is deleted.
     */
    method GetServer(key: ServerKey) returns (r: Result<Simulated>)
      requires Valid()
      ensures r.Success? <==> exists name :: key in Everyone(name)
      ensures r.Success? ==> key in Everyone(r.value.name) && r.value.name == key.name
      ensures r.Success? ==> (key in Living(r.value.name) <==> !r.value.deleted)
    {
      if key in servers {
        assert key in Everyone(servers[key].name);
        return Success(servers[key]);
      }
      return Failure;
    }

    /** More than one living server of a name is an error. */
    method FindServerByName(name: string) returns (r: Result<Option<ServerKey>>)
      requires Valid()
      ensures r == Success(None) <==> Living(name) == {}
      ensures r.Success? && r.value.Some? ==> Living(name) == {r.value.value}
      ensures r.Failure? <==> |Living(name)| > 1
    {
      var matches := set key | key in servers && servers[key].name == name && !servers[key].deleted;
      if matches == {} {
        return Success(None);
      }
      var key :| key in matches;
      if matches != {key} {
        assert |matches - {key}| > 0;
        return Failure;
      }
      return Success(Some(key));
    }

    /** A deleted server stays known, so deleting it again succeeds. */
    method DeleteServer(key: ServerKey) returns (ok: bool)
      requires Valid()
      modifies this
      ensures Valid() && ok == (key in old(servers))
      ensures servers == if ok then old(servers)[key := old(servers)[key].(deleted := true)] else old(servers)
      ensures ok ==> key !in Living(old(servers)[key].name)
    {
      if key !in servers {
        return false;
      }
      servers := servers[key := servers[key].(deleted := true)];
      return true;
    }
  }

  // ---- Before and after a create ----

  datatype Denial = AttemptLimit | TemporaryLimit | ConcurrencyLimit

  /** The first limit a create would break. */
  function Validate(cfg: Worker.Config, attempt: nat, temporary: nat, others: nat): Option<Denial> {
    if attempt < 1 || attempt > cfg.maxAttempts then Some(AttemptLimit)
    else if temporary >= cfg.maxTemporary then Some(TemporaryLimit)
    else if others >= cfg.maxConcurrent then Some(ConcurrencyLimit)
    else None
  }

  /** The protocol's create step is allowed exactly by this policy, fed with the other active jobs. */
  lemma PolicyIsTheGate(cfg: Worker.Config, attempt: nat, temporary: nat, actives: nat)
    ensures Validate(cfg, attempt, temporary, if actives >= 1 then actives - 1 else 0) == None
            <==> Worker.MayCreate(cfg, attempt, temporary, actives)
  {
  }

  datatype Status = Starting | Running | Errored | Deleted | OtherStatus

  /** The answer to one poll, or the error it raised. */
  datatype Poll = Poll(status: Status, ip: string) | ServerMissing | CallFailed(transient: bool)

  datatype Readiness = Ready(poll: Poll) | TerminalState | TimedOut | Raised(poll: Poll)

  predicate IsReady(p: Poll) { p.Poll? && p.status == Running && p.ip != "" }

  predicate IsTerminal(p: Poll) { p.Poll? && (p.status == Errored || p.status == Deleted) }

  predicate Decisive(p: Poll) { IsReady(p) || IsTerminal(p) || !p.Poll? }

  /** What the first decisive poll before the deadline says. */
  ghost predicate FirstDecision(polls: seq<Poll>, r: Readiness) {
    match r
    case TimedOut => forall i :: 0 <= i < |polls| ==> !Decisive(polls[i])
    case Ready(p) =>
      exists n :: 0 <= n < |polls| && polls[n] == p && IsReady(p) && forall i :: 0 <= i < n ==> !Decisive(polls[i])
    case TerminalState =>
      exists n :: 0 <= n < |polls| && IsTerminal(polls[n]) && forall i :: 0 <= i < n ==> !Decisive(polls[i])
    case Raised(p) =>
      exists n :: 0 <= n < |polls| && polls[n] == p && !p.Poll? && forall i :: 0 <= i < n ==> !Decisive(polls[i])
  }

  /** Polls until ready, terminal or out of time; `polls` are the answers that fit before the deadline. */
  method WaitUntilReady(polls: seq<Poll>) returns (r: Readiness)
    ensures FirstDecision(polls, r)
    ensures r.Ready? ==> IsReady(r.poll)
  {
    var n := 0;
    while n < |polls|
      invariant 0 <= n <= |polls|
      invariant forall i :: 0 <= i < n ==> !Decisive(polls[i])
    {
      if !polls[n].Poll? {
        return Raised(polls[n]);
      }
      if polls[n].status == Running && polls[n].ip != "" {
        return Ready(polls[n]);
      }
      if polls[n].status in {Errored, Deleted} {
        return TerminalState;
      }
      n := n + 1;
    }
    return TimedOut;
  }
}
