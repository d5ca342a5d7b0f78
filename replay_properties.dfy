/** Properties of journal replay: the side-effect description, the side-effect cursor and
    the snapshot check. */
module ReplayProperties {
  import opened Wrappers
  import opened PyValues
  import opened Replay

  function Reprs(xs: seq<Value>, repr: Value -> string): seq<string> {
    seq(|xs|, i requires 0 <= i < |xs| => repr(xs[i]))
  }

  /** With no arguments at all, every part of the description is a placeholder; a missing
      or false function id is ANY_FUNCTION. */
  lemma MissingPartsArePlaceholders(f: Value, repr: Value -> string)
    requires !Truthy(f)
    ensures SideEffectAsString([], repr) == Ok("ANY_FUNCTION(ANY_ARGS, ANY_KWARGS)")
    ensures SideEffectAsString([f], repr) == Ok("ANY_FUNCTION(ANY_ARGS, ANY_KWARGS)")
  {
    PlaceholderText(repr);
    assert FunIdDesc([f], repr) == FunIdDesc([], repr);
    assert ArgsDesc([f], repr) == ArgsDesc([], repr);
    assert KwargsDesc([f], repr) == KwargsDesc([], repr);
  }

  /** The description of a call with no arguments, spelled out. */
  lemma PlaceholderText(repr: Value -> string)
    ensures CallDesc([], repr) == "ANY_FUNCTION(ANY_ARGS, ANY_KWARGS)"
  {
    PlaceholderParams();
    assert ArgsDesc([], repr) + KwargsDesc([], repr) == [AnyArgs] + [AnyKwargs];
  }

  lemma PlaceholderParams()
    ensures Join(", ", [AnyArgs] + [AnyKwargs]) == "ANY_ARGS, ANY_KWARGS"
  {
    assert [AnyArgs] + [AnyKwargs] == [AnyArgs, AnyKwargs];
    assert Join(", ", [AnyArgs, AnyKwargs]) == Join(", ", [AnyArgs]) + ", " + AnyKwargs;
  }

  /** The description is the function id, then the joined parameters in parentheses. */
  lemma CallDescIs(args: seq<Value>, repr: Value -> string, fid: string, params: seq<string>)
    requires FunIdDesc(args, repr) == fid && ArgsDesc(args, repr) + KwargsDesc(args, repr) == params
    ensures CallDesc(args, repr) == fid + "(" + Join(", ", params) + ")"
  {
  }

  /** A function id with positional arguments but no keywords: each argument printed by
      repr(), then the ANY_KWARGS placeholder. */
  lemma PositionalArguments(f: string, xs: seq<Value>, repr: Value -> string)
    requires f != ""
    ensures SideEffectAsString([VStr(f)], repr) == Ok(f + "(" + "ANY_ARGS, ANY_KWARGS" + ")")
    ensures SideEffectAsString([VStr(f), VTuple(xs)], repr)
         == Ok(f + "(" + Join(", ", Reprs(xs, repr) + [AnyKwargs]) + ")")
  {
    PlaceholderParams();
    CallDescIs([VStr(f)], repr, f, [AnyArgs] + [AnyKwargs]);
    var args := [VStr(f), VTuple(xs)];
    assert ArgsDesc(args, repr) == Reprs(xs, repr);
    CallDescIs(args, repr, f, Reprs(xs, repr) + [AnyKwargs]);
  }

  /** An empty tuple and an empty dict describe a call with no parameters; None arguments
      are the ANY_ARGS placeholder. */
  lemma EmptyCall(f: string, repr: Value -> string)
    requires f != ""
    ensures SideEffectAsString([VStr(f), VTuple([]), VDict([])], repr) == Ok(f + "(" + ")")
    ensures SideEffectAsString([VStr(f), VNone, VDict([])], repr) == Ok(f + "(" + AnyArgs + ")")
  {
    var empty := [VStr(f), VTuple([]), VDict([])];
    assert ArgsDesc(empty, repr) + KwargsDesc(empty, repr) == [];
    CallDescIs(empty, repr, f, []);
    assert f + "(" + "" == f + "(";
    var none := [VStr(f), VNone, VDict([])];
    assert ArgsDesc(none, repr) + KwargsDesc(none, repr) == [AnyArgs];
    CallDescIs(none, repr, f, [AnyArgs]);
  }

  /** Only the first three arguments are described; the fourth (the effects) is never
      printed, the fifth (the result) is appended after ": ", and a sixth is an error. */
  lemma ResultSuffix(args: seq<Value>, repr: Value -> string)
    requires |args| >= 3
    ensures |args| < 5 ==> SideEffectAsString(args, repr) == SideEffectAsString(args[..3], repr)
    ensures |args| == 5 ==>
      SideEffectAsString(args, repr) == Ok(SideEffectAsString(args[..3], repr).value + ": " + repr(args[4]))
    ensures |args| > 5 ==> SideEffectAsString(args, repr) == Err(InvalidSpecification)
  {
    var a3 := args[..3];
    assert a3[0] == args[0] && a3[1] == args[1] && a3[2] == args[2];
    assert FunIdDesc(a3, repr) == FunIdDesc(args, repr);
    assert ArgsDesc(a3, repr) == ArgsDesc(args, repr);
    assert KwargsDesc(a3, repr) == KwargsDesc(args, repr);
  }

  /** Four arguments ("foo", (), {}, None) print as "foo()", with no result: a result is
      printed only when it is the fifth argument. */
  lemma FourArgumentsHaveNoResult(repr: Value -> string)
    ensures SideEffectAsString([VStr("foo"), VTuple([]), VDict([]), VNone], repr) == Ok("foo()")
    ensures SideEffectAsString([VStr("foo"), VTuple([]), VDict([]), VList([]), VNone], repr)
         == Ok("foo(): " + repr(VNone))
  {
    var four := [VStr("foo"), VTuple([]), VDict([]), VNone];
    var five := [VStr("foo"), VTuple([]), VDict([]), VList([]), VNone];
    assert ArgsDesc(four, repr) == [] && KwargsDesc(four, repr) == [];
    assert CallDesc(four, repr) == "foo()";
    assert ArgsDesc(five, repr) == [] && KwargsDesc(five, repr) == [];
    assert CallDesc(five, repr) == "foo()";
    assert SideEffectAsString(five, repr) == Ok("foo()" + ": " + repr(five[4]));
    assert "foo()" + ": " + repr(VNone) == "foo(): " + repr(VNone);
  }

  /** next_side_effect moves the cursor by exactly one while recorded side effects remain,
      whatever the outcome, and fails without moving once they are exhausted. */
  lemma CursorAdvancesByOne(effects: seq<SideEffect>, c: Cursor, funId: string, args: seq<Value>,
                            kwargs: seq<(string, Value)>)
    ensures var (c', r) := NextSideEffectSpec(effects, c, funId, args, kwargs);
      && (c.next < |effects| ==> c'.next == c.next + 1)
      && (c.next >= |effects| ==> c' == c && r == Err(UnexpectedSideEffect))
      && (r.Err? ==> c'.applied == c.applied)
      && (r.Ok? ==> c.next < |effects| && c'.applied == c.applied + effects[c.next].effects
                    && r.value == effects[c.next].result)
  {
  }

  /** A different function id always fails; otherwise differing arguments fail (reporting
      the length of the common prefix as the differing index) and differing keywords fail,
      unless the id is "SIDE EFFECT SKIPPED", which matches whatever the arguments. */
  lemma MismatchRules(effects: seq<SideEffect>, c: Cursor, funId: string, args: seq<Value>,
                      kwargs: seq<(string, Value)>)
    requires c.next < |effects|
    ensures var se := effects[c.next];
      var r := NextSideEffectSpec(effects, c, funId, args, kwargs).1;
      && (se.funId != funId ==> r == Err(CalledInstead))
      && (se.funId == funId == Skipped ==> r == Ok(se.result))
      && (se.funId == funId != Skipped && RestoredArgs(se) != args ==>
            r.Err? && r.error.BadArguments?
            && var n := r.error.index;
               n <= |args| && n <= |RestoredArgs(se)| && RestoredArgs(se)[..n] == args[..n]
               && (n < |args| && n < |RestoredArgs(se)| ==> RestoredArgs(se)[n] != args[n]))
      && (se.funId == funId != Skipped && RestoredArgs(se) == args ==>
            (r.Ok? <==> SameItems(RestoredKwargs(se), kwargs)))
  {
  }

  /** Re-running exactly the recorded calls from any position `k` consumes every recorded
      side effect after it, each call returning its recorded result, and applies their
      effects in order. */
  lemma {:induction false} ReplayingTheRecordConsumesIt(effects: seq<SideEffect>, k: nat, applied: seq<Effect>)
    requires k <= |effects|
    ensures var run := RunCalls(effects, Cursor(k, applied), RecordedCalls(effects)[k..]);
      && run.0 == Cursor(|effects|, applied + AllEffects(effects[k..]))
      && |run.1| == |effects| - k
      && (forall i :: 0 <= i < |run.1| ==> run.1[i] == Ok(effects[k + i].result))
    decreases |effects| - k
  {
    var calls := RecordedCalls(effects)[k..];
    if k == |effects| {
      assert calls == [];
      assert effects[k..] == [];
    } else {
      var se := effects[k];
      assert calls[0] == Call(se.funId, RestoredArgs(se), RestoredKwargs(se));
      var step := NextSideEffectSpec(effects, Cursor(k, applied), calls[0].funId, calls[0].args, calls[0].kwargs);
      assert step == (Cursor(k + 1, applied + se.effects), Ok(se.result));
      assert calls[1..] == RecordedCalls(effects)[k + 1..];
      ReplayingTheRecordConsumesIt(effects, k + 1, applied + se.effects);
      assert effects[k..][1..] == effects[k + 1..];
      assert AllEffects(effects[k..]) == se.effects + AllEffects(effects[k + 1..]);
      var rest := RunCalls(effects, step.0, calls[1..]);
      assert RunCalls(effects, Cursor(k, applied), calls) == (rest.0, [step.1] + rest.1);
    }
  }

  /** After rewinding, replaying the recorded calls leaves nothing unconsumed; a cursor that
      stops short of the end fails apply()'s check, reporting exactly the rest. */
  lemma RewindAndReplayPassesCheck(effects: seq<SideEffect>, c: Cursor)
    ensures var run := RunCalls(effects, c.(next := 0), RecordedCalls(effects));
      ConsumedSpec(effects, run.0) == Ok(())
    ensures c.next < |effects| ==> ConsumedSpec(effects, c) == Err(Unconsumed(effects[c.next..]))
    ensures c.next >= |effects| ==> ConsumedSpec(effects, c) == Ok(())
  {
    ReplayingTheRecordConsumesIt(effects, 0, c.applied);
    assert RecordedCalls(effects)[0..] == RecordedCalls(effects);
  }

  /** check_snapshot accepts restored protocols that are a rearrangement of the old ones,
      and rejects any that contain a protocol the old list lacks. */
  lemma SnapshotAcceptsRearrangement(agent: Value, oldProtocols: seq<Value>, protocols: seq<Value>)
    ensures multiset(protocols) == multiset(oldProtocols) ==>
      SnapshotVerdict(Some(agent), oldProtocols, Some(agent), protocols) == Ok(())
    ensures (exists p :: p in protocols && p !in oldProtocols) && |protocols| == |oldProtocols| ==>
      SnapshotVerdict(Some(agent), oldProtocols, Some(agent), protocols) == Err(ProtocolNotFound)
  {
    if multiset(protocols) == multiset(oldProtocols) {
      assert |protocols| == |multiset(protocols)| == |multiset(oldProtocols)| == |oldProtocols|;
      forall p | p in protocols
        ensures p in oldProtocols
      {
        assert p in multiset(protocols);
      }
    }
  }

  /** The check compares membership only: a restored list repeating one old protocol in
      place of another is accepted. */
  lemma SnapshotIgnoresMultiplicity(agent: Value)
    ensures SnapshotVerdict(Some(agent), [VObject(1), VObject(2)], Some(agent), [VObject(1), VObject(1)]) == Ok(())
  {
  }
}
