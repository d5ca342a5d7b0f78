/** Properties of the emulated agency's shard bookkeeping. */
module EmuAgencyProperties {
  import opened Wrappers
  import opened EmuAgency

  /** Removing the element just appended, when it was not there before, gives back the
      original list. */
  lemma {:induction false} RemoveAppended<T>(l: seq<T>, x: T)
    requires x !in l
    ensures RemoveFirst(l + [x], x) == l
    decreases |l|
  {
    if l != [] {
      assert (l + [x])[1..] == l[1..] + [x];
      RemoveAppended(l[1..], x);
    }
  }

  /** Joining a shard and then leaving it restores the shard's list; the shard's key
      remains, with an empty list if the agent was its only member. */
  lemma JoinThenLeave(shards: map<Shard, seq<AgencyAgent>>, agent: AgencyAgent, shard: Shard)
    requires agent !in ShardList(shards, shard)
    ensures var after := LeftSpec(JoinedSpec(shards, agent, shard), agent, shard);
      && after == shards[shard := ShardList(shards, shard)]
      && shard in after
  {
    RemoveAppended(ShardList(shards, shard), agent);
  }

  /** Leaving keeps every shard key, removes one occurrence of a member agent, and leaves
      the list alone for an agent that is not a member; other shards are untouched. */
  lemma LeaveOutcome(shards: map<Shard, seq<AgencyAgent>>, agent: AgencyAgent, shard: Shard)
    ensures var after := LeftSpec(shards, agent, shard);
      && shard in after
      && (forall s :: s != shard ==> (s in after <==> s in shards) && (s in shards ==> after[s] == shards[s]))
      && (agent !in ShardList(shards, shard) ==> after[shard] == ShardList(shards, shard))
      && (agent in ShardList(shards, shard) ==>
            multiset(after[shard]) == multiset(ShardList(shards, shard)) - multiset{agent})
  {
  }

  /** A session id can be registered once: a registration succeeds exactly for a new id,
      keeps every other listener, and a second registration of the same id fails. */
  lemma RegisterListenerOnce(listeners: map<string, nat>, sessionId: string, l1: nat, l2: nat)
    ensures RegisterListenerSpec(listeners, sessionId, l1).Ok? <==> sessionId !in listeners
    ensures var r := RegisterListenerSpec(listeners, sessionId, l1);
      r.Ok? ==>
        && r.value[sessionId] == l1
        && (forall k :: k != sessionId ==> (k in r.value <==> k in listeners) && (k in listeners ==> r.value[k] == listeners[k]))
        && RegisterListenerSpec(r.value, sessionId, l2) == Err(SessionTaken)
  {
  }
}
