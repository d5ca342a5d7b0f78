/**
  The emulated agency, src/feat/agencies/emu/agency.py: the agency keeps its agent mediums
  and, per shard, the mediums that joined it; each medium keeps its protocol listeners by
  session id. Messaging bindings, the database and the agent's own initiate() are not part
  of this model.
*/
module EmuAgency {
  import opened Wrappers

  type Shard = Option<string>

  /** `s` is `r` with `x` put back at its first occurrence. */
  ghost predicate RemovedFirst<T>(s: seq<T>, x: T, r: seq<T>) {
    exists i :: 0 <= i < |s| && s[i] == x && x !in s[..i] && r == s[..i] + s[i + 1..]
  }

  /** `list.remove(x)`: `s` without the first occurrence of `x`, the rest in order. */
  function RemoveFirst<T(==)>(s: seq<T>, x: T): (r: seq<T>)
    requires x in s
    ensures RemovedFirst(s, x, r)
    ensures |r| == |s| - 1
    ensures multiset(r) == multiset(s) - multiset{x}
    decreases |s|
  {
    if s[0] == x then
      assert s == [s[0]] + s[1..];
      assert s[..0] == [] && s[1..] == s[..0] + s[0 + 1..];
      s[1..]
    else
      assert s == [s[0]] + s[1..];
      var rest := RemoveFirst(s[1..], x);
      RemovedFirstCons(s, x, rest);
      [s[0]] + rest
  }

  /** Putting back an element in front of both lists keeps the first-occurrence shape. */
  lemma RemovedFirstCons<T>(s: seq<T>, x: T, rest: seq<T>)
    requires s != [] && s[0] != x && RemovedFirst(s[1..], x, rest)
    ensures RemovedFirst(s, x, [s[0]] + rest)
  {
    var i :| 0 <= i < |s[1..]| && s[1..][i] == x && x !in s[1..][..i] && rest == s[1..][..i] + s[1..][i + 1..];
    assert s[..i + 1] == [s[0]] + s[1..][..i];
    assert s[i + 2..] == s[1..][i + 1..];
    assert [s[0]] + rest == s[..i + 1] + s[i + 2..];
  }

  /** What shards[shard] would be read as: `self._shards.get(shard, [])`. */
  function ShardList(shards: map<Shard, seq<AgencyAgent>>, shard: Shard): seq<AgencyAgent> {
    if shard in shards then shards[shard] else []
  }

  /** The shards after joinedShard(agent, shard): the agent is appended to the shard's list,
      which is created if absent. */
  function JoinedSpec(shards: map<Shard, seq<AgencyAgent>>, agent: AgencyAgent, shard: Shard): map<Shard, seq<AgencyAgent>> {
    shards[shard := ShardList(shards, shard) + [agent]]
  }

  /** The shards after leftShard(agent, shard): the first occurrence of the agent is removed
      if there is one; the shard keeps its (possibly empty) list either way. */
  function LeftSpec(shards: map<Shard, seq<AgencyAgent>>, agent: AgencyAgent, shard: Shard): map<Shard, seq<AgencyAgent>> {
    var l := ShardList(shards, shard);
    shards[shard := if agent in l then RemoveFirst(l, agent) else l]
  }

  datatype AgencyError = NotAnAgent | SessionTaken

  /** The listeners after register_listener: a session id that is already taken fails the
      assertion and leaves them as they were. */
  function RegisterListenerSpec(listeners: map<string, nat>, sessionId: string, listener: nat)
    : Result<map<string, nat>, AgencyError>
  {
    if sessionId in listeners then Err(SessionTaken) else Ok(listeners[sessionId := listener])
  }

  class Agency {
    var agents: seq<AgencyAgent>
    /** shard -> the mediums that joined it */
    var shards: map<Shard, seq<AgencyAgent>>
    /** The shards an agent was asked to leave but was not in (logged as errors). */
    var errors: seq<Shard>

    constructor ()
      ensures agents == [] && shards == map[] && errors == []
    {
      agents := [];
      shards := map[];
      errors := [];
    }

    /** start_agent: a new medium, which joins its descriptor's shard while it is built,
        appended to the agency's agents. */
    method StartAgent(uuid: string, shard: Shard) returns (medium: AgencyAgent)
      modifies this
      ensures fresh(medium) && medium.agency == this && medium.uuid == uuid && medium.shard == shard
      ensures medium.listeners == map[]
      ensures agents == old(agents) + [medium]
      ensures shards == JoinedSpec(old(shards), medium, shard)
      ensures errors == old(errors)
    {
      medium := new AgencyAgent(this, uuid, shard);
      agents := agents + [medium];
    }

    /** unregisterAgent: `list.remove`, which raises for an agent that is not there. */
    method UnregisterAgent(agent: AgencyAgent) returns (r: Result<(), AgencyError>)
      modifies this
      ensures r.Ok? <==> agent in old(agents)
      ensures agents == if r.Ok? then RemoveFirst(old(agents), agent) else old(agents)
      ensures shards == old(shards) && errors == old(errors)
    {
      if agent !in agents {
        return Err(NotAnAgent);
      }
      agents := RemoveFirst(agents, agent);
      return Ok(());
    }

    method JoinedShard(agent: AgencyAgent, shard: Shard)
      modifies this
      ensures shards == JoinedSpec(old(shards), agent, shard)
      ensures agents == old(agents) && errors == old(errors)
    {
      var shardList := ShardList(shards, shard);
      shardList := shardList + [agent];
      shards := shards[shard := shardList];
    }

    method LeftShard(agent: AgencyAgent, shard: Shard)
      modifies this
      ensures shards == LeftSpec(old(shards), agent, shard)
      ensures errors == if agent in ShardList(old(shards), shard) then old(errors) else old(errors) + [shard]
      ensures agents == old(agents)
    {
      var shardList := ShardList(shards, shard);
      if agent in shardList {
        shardList := RemoveFirst(shardList, agent);
      } else {
        errors := errors + [shard];
      }
      shards := shards[shard := shardList];
    }
  }

  class AgencyAgent {
    const agency: Agency
    const uuid: string
    /** descriptor.shard */
    var shard: Shard
    /** session id -> listener */
    var listeners: map<string, nat>

    /** __init__, which joins the descriptor's shard. */
    constructor (agency: Agency, uuid: string, shard: Shard)
      modifies agency
      ensures this.agency == agency && this.uuid == uuid && this.shard == shard && listeners == map[]
      ensures agency.shards == JoinedSpec(old(agency.shards), this, shard)
      ensures agency.agents == old(agency.agents) && agency.errors == old(agency.errors)
    {
      this.agency := agency;
      this.uuid := uuid;
      this.shard := shard;
      listeners := map[];
      new;
      agency.JoinedShard(this, shard);
    }

    /** register_listener: a session id can be registered once. */
    method RegisterListener(sessionId: string, listener: nat) returns (r: Result<(), AgencyError>)
      modifies this
      ensures var spec := RegisterListenerSpec(old(listeners), sessionId, listener);
        && (r.Ok? <==> spec.Ok?)
        && listeners == if spec.Ok? then spec.value else old(listeners)
      ensures shard == old(shard)
    {
      if sessionId in listeners {
        return Err(SessionTaken);
      }
      listeners := listeners[sessionId := listener];
      return Ok(());
    }

    /** leaveShard: the agency is told, and the descriptor no longer names a shard. */
    method LeaveShard()
      modifies this, agency
      ensures agency.shards == LeftSpec(old(agency.shards), this, old(shard))
      ensures shard == None && listeners == old(listeners)
      ensures agency.errors == if this in ShardList(old(agency.shards), old(shard)) then old(agency.errors)
                               else old(agency.errors) + [old(shard)]
      ensures agency.agents == old(agency.agents)
    {
      agency.LeftShard(this, shard);
      shard := None;
    }
  }
}
