/**
  Journal replay, src/feat/agencies/replay.py: the description of a recorded side effect,
  the cursor a journal entry keeps over its recorded side effects while the agent's
  code is re-run, and the registries of recorders and dummy mediums the replay driver
  keeps.
*/
module Replay {
  import opened Wrappers
  import opened PyValues

  /** What replay raises: RuntimeError for a malformed description or a dummy registry
      misuse, ValueError for a missing recorder, ReplayError for everything else. */
  datatype ReplayError =
    | InvalidSpecification
    | UnexpectedSideEffect
    | CalledInstead
    | BadArguments(index: nat)
    | BadKeywords
    | Unconsumed(remaining: seq<SideEffect>)
    | ResultMismatch
    | AgentMismatch
    | InstanceNotFound
    | RecorderAlreadyRegistered
    | DummyAlreadyRegistered
    | DummyNotFound
    | SnapshotAgentMismatch
    | ProtocolCountMismatch
    | ProtocolNotFound

  // ---------------------------------------------------------------------------
  // side_effect_as_string

  const AnyFunction := "ANY_FUNCTION"
  const AnyArgs := "ANY_ARGS"
  const AnyKwargs := "ANY_KWARGS"

  function FunIdDesc(args: seq<Value>, repr: Value -> string): string {
    if |args| > 0 then Str(Or(args[0], VStr(AnyFunction)), repr) else AnyFunction
  }

  function ArgsDesc(args: seq<Value>, repr: Value -> string): seq<string> {
    if |args| <= 1 || args[1].VNone? then [AnyArgs]
    else if args[1].VTuple? then seq(|args[1].items|, i requires 0 <= i < |args[1].items| => repr(args[1].items[i]))
    else [Str(args[1], repr)]
  }

  function KwargsDesc(args: seq<Value>, repr: Value -> string): seq<string> {
    if |args| <= 2 || args[2].VNone? then [AnyKwargs]
    else if args[2].VDict? then
      seq(|args[2].entries|, i requires 0 <= i < |args[2].entries| =>
        args[2].entries[i].0 + "=" + repr(args[2].entries[i].1))
    else [Str(args[2], repr)]
  }

  /** `"%s(%s)" % (fun_id, params)` for the first three arguments. */
  function CallDesc(args: seq<Value>, repr: Value -> string): string {
    FunIdDesc(args, repr) + "(" + Join(", ", ArgsDesc(args, repr) + KwargsDesc(args, repr)) + ")"
  }

  /** side_effect_as_string(*args): the call description, followed by `": " + repr(result)`
      when a fifth argument (the result) is given; more than five is an error. */
  function SideEffectAsString(args: seq<Value>, repr: Value -> string): (r: Result<string, ReplayError>)
    ensures r.Err? <==> |args| > 5
    ensures r.Err? ==> r.error == InvalidSpecification
  {
    var text := CallDesc(args, repr);
    if |args| < 5 then Ok(text)
    else if |args| > 5 then Err(InvalidSpecification)
    else Ok(text + ": " + repr(args[4]))
  }

  // ---------------------------------------------------------------------------
  // JournalReplayEntry: the side-effect cursor

  /** An effect a side effect had on the agency, re-applied through the replay driver. */
  datatype Effect = Effect(id: string, args: seq<Value>, kwargs: seq<(string, Value)>)

  /** A recorded side effect; recorded arguments may be missing. */
  datatype SideEffect = SideEffect(
    funId: string,
    args: Option<seq<Value>>,
    kwargs: Option<seq<(string, Value)>>,
    effects: seq<Effect>,
    result: Value)

  /** `convert(raw_args) or ()`. */
  function RestoredArgs(se: SideEffect): seq<Value> {
    if se.args.Some? then se.args.value else []
  }

  /** `convert(raw_kwargs) or {}`. */
  function RestoredKwargs(se: SideEffect): seq<(string, Value)> {
    if se.kwargs.Some? then se.kwargs.value else []
  }

  /** The function id under which side effects that could not be recorded are journaled;
      their arguments are not compared. */
  const Skipped := "SIDE EFFECT SKIPPED"

  /** The number of leading positions at which `a` and `b` agree (the counting loop over
      `zip(exp_args, args)`). */
  function CommonPrefixLength(a: seq<Value>, b: seq<Value>): (n: nat)
    ensures n <= |a| && n <= |b|
    ensures a[..n] == b[..n]
    ensures n < |a| && n < |b| ==> a[n] != b[n]
    decreases |a|
  {
    if a == [] || b == [] || a[0] != b[0] then 0
    else
      var k := CommonPrefixLength(a[1..], b[1..]);
      assert a[..k + 1] == [a[0]] + a[1..][..k];
      assert b[..k + 1] == [b[0]] + b[1..][..k];
      1 + k
  }

  /** The cursor's state: the index of the next side effect and the effects applied so far. */
  datatype Cursor = Cursor(next: nat, applied: seq<Effect>)

  /** next_side_effect(function_id, *args, **kwargs). */
  function NextSideEffectSpec(effects: seq<SideEffect>, c: Cursor, funId: string, args: seq<Value>,
                              kwargs: seq<(string, Value)>): (Cursor, Result<Value, ReplayError>)
  {
    if c.next >= |effects| then (c, Err(UnexpectedSideEffect))
    else
      var se := effects[c.next];
      var c1 := c.(next := c.next + 1);
      var ignore := funId == Skipped;
      if se.funId != funId then (c1, Err(CalledInstead))
      else if !ignore && RestoredArgs(se) != args then
        (c1, Err(BadArguments(CommonPrefixLength(RestoredArgs(se), args))))
      else if !ignore && !SameItems(RestoredKwargs(se), kwargs) then (c1, Err(BadKeywords))
      else (c1.(applied := c.applied + se.effects), Ok(se.result))
  }

  /** The unconsumed-side-effects check of apply(). */
  function ConsumedSpec(effects: seq<SideEffect>, c: Cursor): Result<(), ReplayError> {
    if c.next < |effects| then Err(Unconsumed(effects[c.next..])) else Ok(())
  }

  /** One call the replayed code makes. */
  datatype Call = Call(funId: string, args: seq<Value>, kwargs: seq<(string, Value)>)

  /** The calls exactly as they were recorded. */
  function RecordedCalls(effects: seq<SideEffect>): (calls: seq<Call>)
    ensures |calls| == |effects|
  {
    seq(|effects|, i requires 0 <= i < |effects| =>
      Call(effects[i].funId, RestoredArgs(effects[i]), RestoredKwargs(effects[i])))
  }

  /** The replayed code making `calls` one after the other, stopping at the first error. */
  function RunCalls(effects: seq<SideEffect>, c: Cursor, calls: seq<Call>): (Cursor, seq<Result<Value, ReplayError>>)
    decreases |calls|
  {
    if calls == [] then (c, [])
    else
      var step := NextSideEffectSpec(effects, c, calls[0].funId, calls[0].args, calls[0].kwargs);
      if step.1.Err? then (step.0, [step.1])
      else
        var rest := RunCalls(effects, step.0, calls[1..]);
        (rest.0, [step.1] + rest.1)
  }

  /** All the effects of `s`, in order. */
  function AllEffects(s: seq<SideEffect>): seq<Effect> {
    if s == [] then [] else s[0].effects + AllEffects(s[1..])
  }

  class JournalReplayEntry {
    const agentId: string
    const journalId: string
    const sideEffects: seq<SideEffect>
    /** The recorded result of the entry's function. */
    const result: Value
    var next: nat
    var applied: seq<Effect>

    function Model(): Cursor
      reads this
    {
      Cursor(next, applied)
    }

    constructor (agentId: string, journalId: string, sideEffects: seq<SideEffect>, result: Value)
      ensures this.agentId == agentId && this.journalId == journalId
      ensures this.sideEffects == sideEffects && this.result == result
      ensures Model() == Cursor(0, [])
    {
      this.agentId := agentId;
      this.journalId := journalId;
      this.sideEffects := sideEffects;
      this.result := result;
      next := 0;
      applied := [];
    }

    method RewindSideEffects()
      modifies this
      ensures Model() == old(Model()).(next := 0)
    {
      next := 0;
    }

    /** The counting loop: the index of the first differing argument. */
    static method DifferingIndex(expected: seq<Value>, got: seq<Value>) returns (which: nat)
      ensures which == CommonPrefixLength(expected, got)
    {
      which := 0;
      while which < |expected| && which < |got| && expected[which] == got[which]
        invariant which <= |expected| && which <= |got|
        invariant expected[..which] == got[..which]
        invariant CommonPrefixLength(expected, got) >= which
        decreases |expected| - which
      {
        which := which + 1;
      }
    }

    method NextSideEffect(funId: string, args: seq<Value>, kwargs: seq<(string, Value)>)
      returns (r: Result<Value, ReplayError>)
      modifies this
      ensures (Model(), r) == NextSideEffectSpec(sideEffects, old(Model()), funId, args, kwargs)
    {
      if next >= |sideEffects| {
        return Err(UnexpectedSideEffect);
      }
      var se := sideEffects[next];
      next := next + 1;
      var expArgs := RestoredArgs(se);
      var expKwargs := RestoredKwargs(se);
      var ignore := funId == Skipped;
      if se.funId != funId {
        return Err(CalledInstead);
      }
      if !ignore && expArgs != args {
        var which := DifferingIndex(expArgs, args);
        return Err(BadArguments(which));
      }
      if !ignore && !SameItems(expKwargs, kwargs) {
        return Err(BadKeywords);
      }
      applied := applied + se.effects;
      return Ok(se.result);
    }

    /** apply(), once the recorder `instance.replay(entry)` has re-run the function and
        returned `replayed`; the recorder registry is given as the set of its journal ids.
        Entries of the agency itself are dispatched to the driver's effect handlers. */
    method Apply(replayAgentId: string, registry: set<string>, replayed: Value)
      returns (r: Result<(), ReplayError>)
      ensures agentId != replayAgentId ==> r == Err(AgentMismatch)
      ensures agentId == replayAgentId && journalId == "agency" ==> r == Ok(())
      ensures agentId == replayAgentId && journalId != "agency" ==>
        r == if journalId !in registry then Err(InstanceNotFound)
             else if ConsumedSpec(sideEffects, Model()).Err? then ConsumedSpec(sideEffects, Model())
             else if replayed != result then Err(ResultMismatch)
             else Ok(())
    {
      if agentId != replayAgentId {
        return Err(AgentMismatch);
      }
      if journalId == "agency" {
        return Ok(());
      }
      if journalId !in registry {
        return Err(InstanceNotFound);
      }
      if next < |sideEffects| {
        return Err(Unconsumed(sideEffects[next..]));
      }
      if replayed != result {
        return Err(ResultMismatch);
      }
      return Ok(());
    }
  }

  // ---------------------------------------------------------------------------
  // The replay driver's registries

  /** A dummy medium restored during replay, identified by the id it was journaled under. */
  datatype Dummy = Dummy(typeName: string, dummyId: nat)

  class ReplayDriver {
    /** journal_id -> recorder */
    var registry: map<string, nat>
    /** dummy id -> dummy medium */
    var dummies: map<nat, Dummy>
    var agent: Option<Value>
    var protocols: seq<Value>

    constructor ()
      ensures registry == map[] && dummies == map[] && agent == None && protocols == []
    {
      registry := map[];
      dummies := map[];
      agent := None;
      protocols := [];
    }

    /** register(recorder): the journal id must be new. */
    method Register(journalId: string, recorder: nat) returns (r: Result<(), ReplayError>)
      modifies this
      ensures r.Ok? <==> journalId !in old(registry)
      ensures registry == if r.Ok? then old(registry)[journalId := recorder] else old(registry)
      ensures dummies == old(dummies) && agent == old(agent) && protocols == old(protocols)
    {
      if journalId in registry {
        return Err(RecorderAlreadyRegistered);
      }
      registry := registry[journalId := recorder];
      return Ok(());
    }

    function LookupDummy(dummyId: nat): (d: Option<Dummy>)
      reads this
      ensures d.Some? <==> dummyId in dummies
      ensures d.Some? ==> dummies[dummyId] == d.value
    {
      if dummyId in dummies then Some(dummies[dummyId]) else None
    }

    method RegisterDummy(dummyId: nat, dummy: Dummy) returns (r: Result<(), ReplayError>)
      modifies this
      ensures r == if dummyId in old(dummies) then Err(DummyAlreadyRegistered) else Ok(())
      ensures dummies == if r.Ok? then old(dummies)[dummyId := dummy] else old(dummies)
      ensures registry == old(registry) && agent == old(agent) && protocols == old(protocols)
    {
      if LookupDummy(dummyId).Some? {
        return Err(DummyAlreadyRegistered);
      }
      dummies := dummies[dummyId := dummy];
      return Ok(());
    }

    method UnregisterDummy(dummyId: nat) returns (r: Result<(), ReplayError>)
      modifies this
      ensures r == if dummyId in old(dummies) then Ok(()) else Err(DummyNotFound)
      ensures dummies == old(dummies) - {dummyId}
      ensures registry == old(registry) && agent == old(agent) && protocols == old(protocols)
    {
      if LookupDummy(dummyId).None? {
        return Err(DummyNotFound);
      }
      dummies := dummies - {dummyId};
      return Ok(());
    }

    /** Factory(replay, type_name, cls).restore(dummy_id): the dummy already registered
        under the id, or a new one of the factory's type, registered. */
    method Restore(typeName: string, dummyId: nat) returns (d: Dummy)
      modifies this
      ensures dummyId in old(dummies) ==> d == old(dummies)[dummyId] && dummies == old(dummies)
      ensures dummyId !in old(dummies) ==> d == Dummy(typeName, dummyId) && dummies == old(dummies)[dummyId := d]
      ensures registry == old(registry) && agent == old(agent) && protocols == old(protocols)
    {
      var existing := LookupDummy(dummyId);
      if existing.Some? {
        return existing.value;
      }
      d := Dummy(typeName, dummyId);
      var _ := RegisterDummy(dummyId, d);
    }

    /** check_snapshot(old_agent, old_protocols) against the restored agent and protocols. */
    method CheckSnapshot(oldAgent: Option<Value>, oldProtocols: seq<Value>) returns (r: Result<(), ReplayError>)
      ensures r == SnapshotVerdict(oldAgent, oldProtocols, agent, protocols)
    {
      if oldAgent.None? {
        return Ok(());
      }
      if agent != oldAgent {
        return Err(SnapshotAgentMismatch);
      }
      if |protocols| != |oldProtocols| {
        return Err(ProtocolCountMismatch);
      }
      var i := 0;
      while i < |protocols|
        invariant i <= |protocols|
        invariant forall j :: 0 <= j < i ==> protocols[j] in oldProtocols
      {
        if protocols[i] !in oldProtocols {
          return Err(ProtocolNotFound);
        }
        i := i + 1;
      }
      return Ok(());
    }
  }

  /** What check_snapshot decides: nothing to compare for the first snapshot; otherwise the
      agent must be equal, there must be as many protocols, and each restored protocol
      must be one of the old ones. */
  function SnapshotVerdict(oldAgent: Option<Value>, oldProtocols: seq<Value>,
                           agent: Option<Value>, protocols: seq<Value>): Result<(), ReplayError>
  {
    if oldAgent.None? then Ok(())
    else if agent != oldAgent then Err(SnapshotAgentMismatch)
    else if |protocols| != |oldProtocols| then Err(ProtocolCountMismatch)
    else if exists p :: p in protocols && p !in oldProtocols then Err(ProtocolNotFound)
    else Ok(())
  }
}
