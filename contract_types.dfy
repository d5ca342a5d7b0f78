/**
  The message catalogue, the contract states and the manager's per-contractor
  records of the contract-net protocol: ContractorState, ManagerContractor and
  ManagerContractors of src/feat/agencies/contracts.py.

  The manager's dictionary of records (keyed by `bid.reply_to.key`) is a
  sequence of records with pairwise distinct keys; the order of the sequence is
  the order in which the records were created.
*/
module ContractTypes {
  import opened Wrappers

  /** A contractor or manager address: the `key` of a recipient. */
  type Key = string

  datatype RecipientType = Agent | Broadcast

  datatype Recipient = Recipient(key: Key, rtype: RecipientType)

  datatype MessageKind =
    | Announcement | Bid | Refusal | Duplicate | Rejection | Grant
    | Cancellation | FinalReport | UpdateReport | Acknowledgement
    | Other  // a BaseMessage of no kind any dispatch table knows

  /** The attributes of a protocol message that the contract core reads or writes. */
  datatype Message = Message(
    kind: MessageKind,
    replyTo: Option<Key>,
    expiration: Option<int>,
    traversalId: Option<string>,
    payload: string)

  /** A message freshly built by the core, as `message.Rejection()` builds one. */
  function NewMessage(kind: MessageKind): Message {
    Message(kind, None, None, None, "")
  }

  /** Where a sent message goes: the announcement's recipients, or one contractor. */
  datatype Target = Recipients | To(key: Key)

  /** One entry of the outgoing-message log: a message posted with `_send_message`, or the
      bid of a nested contractor passed on with `_handover_message`. */
  datatype Sent = Sent(to: Target, msg: Message) | HandedOver(to: Target, msg: Message)

  /** The message the receiver of a log entry gets from the transport: `_send_message`
      stamps the message with the sender's own address, `_handover_message` posts the
      message with the reply-to address it already carries. */
  function Delivered(s: Sent, sender: Key): (m: Message)
    ensures m.kind == s.msg.kind && m.expiration == s.msg.expiration
    ensures m.traversalId == s.msg.traversalId && m.payload == s.msg.payload
    ensures s.Sent? ==> m.replyTo == Some(sender)
    ensures s.HandedOver? ==> m == s.msg
  {
    match s
    case Sent(_, msg) => msg.(replyTo := Some(sender))
    case HandedOver(_, msg) => msg
  }

  /** The state of one manager-side record. */
  datatype ContractorState =
    bid | refused | rejected | elected | granted | completed | cancelled | acknowledged

  /** The state of a manager or contractor medium. */
  datatype ContractState =
    | initiated | announced | closed | granted | completed | cancelled | terminated
    | expired | aborted | wtf | bid | refused | rejected | delegated | defected | acknowledged

  /** The single active expiration call of a medium: its deadline, the state it sets
      when it fires (if any), and the callback it runs. */
  datatype Timer<A> = Timer(at: Option<int>, target: Option<ContractState>, action: A)

  /** The manager's view of one contractor: its Bid or Refusal, its state, its FinalReport. */
  datatype Record = Record(key: Key, bid: Message, state: ContractorState, report: Option<Message>)

  /** One row of the record's event table: the accepted states, the new state, and
      whether the message is sent on to the contractor (otherwise it is stored as the report). */
  datatype Rule = Rule(before: set<ContractorState>, after: ContractorState, sends: bool)

  function RecordRule(kind: MessageKind): Option<Rule> {
    match kind
    case Rejection => Some(Rule({ContractorState.bid}, ContractorState.rejected, true))
    case Grant => Some(Rule({ContractorState.bid}, ContractorState.granted, true))
    case Cancellation =>
      Some(Rule({ContractorState.granted, ContractorState.completed}, ContractorState.cancelled, true))
    case Acknowledgement => Some(Rule({ContractorState.completed}, ContractorState.acknowledged, true))
    case FinalReport => Some(Rule({ContractorState.granted}, ContractorState.completed, false))
    case _ => None
  }

  /** ManagerContractor.on_event: the record after `msg`, and what it sends. */
  function OnEvent(r: Record, msg: Message): (Record, seq<Sent>) {
    match RecordRule(msg.kind)
    case None => (r, [])
    case Some(rule) =>
      if r.state !in rule.before then (r, [])
      else if rule.sends then (r.(state := rule.after), [Sent(To(r.key), msg)])
      else (r.(state := rule.after, report := Some(msg)), [])
  }

  /** The record takes exactly the six edges of its table; a message without a row, or
      one arriving in a state its row does not accept, changes nothing and sends nothing. */
  lemma OnEventEdges(r: Record, msg: Message)
    ensures OnEvent(r, msg).0.key == r.key && OnEvent(r, msg).0.bid == r.bid
    ensures OnEvent(r, msg).0.state == r.state ==> OnEvent(r, msg) == (r, [])
    ensures var s, s' := r.state, OnEvent(r, msg).0.state;
      s' != s <==>
        || (msg.kind == Rejection && s == ContractorState.bid && s' == ContractorState.rejected)
        || (msg.kind == Grant && s == ContractorState.bid && s' == ContractorState.granted)
        || (msg.kind == Cancellation && s in {ContractorState.granted, ContractorState.completed}
            && s' == ContractorState.cancelled)
        || (msg.kind == Acknowledgement && s == ContractorState.completed
            && s' == ContractorState.acknowledged)
        || (msg.kind == FinalReport && s == ContractorState.granted && s' == ContractorState.completed
            && OnEvent(r, msg).0.report == Some(msg))
    ensures OnEvent(r, msg).1 ==
      if OnEvent(r, msg).0.state != r.state && msg.kind != FinalReport
      then [Sent(To(r.key), msg)] else []
  {
  }

  /** The keys of the records, in order. */
  function Keys(rs: seq<Record>): (ks: seq<Key>)
    ensures |ks| == |rs| && forall i :: 0 <= i < |rs| ==> ks[i] == rs[i].key
  {
    seq(|rs|, i requires 0 <= i < |rs| => rs[i].key)
  }

  /** The invariant of the records table: one record per contractor key. */
  predicate DistinctKeys(rs: seq<Record>) {
    forall i, j :: 0 <= i < j < |rs| ==> rs[i].key != rs[j].key
  }

  /** Tables with the same keys in the same order both keep one record per key, or neither. */
  lemma SameKeysDistinct(a: seq<Record>, b: seq<Record>)
    requires Keys(a) == Keys(b)
    ensures DistinctKeys(a) <==> DistinctKeys(b)
  {
    assert forall i :: 0 <= i < |a| ==> a[i].key == Keys(b)[i] == b[i].key;
  }

  /** Replacing a record by one with the same key keeps the keys. */
  lemma UpdateKeepsKeys(rs: seq<Record>, i: nat, r: Record)
    requires i < |rs| && r.key == rs[i].key
    ensures Keys(rs[i := r]) == Keys(rs)
    ensures DistinctKeys(rs) ==> DistinctKeys(rs[i := r])
  {
    SameKeysDistinct(rs[i := r], rs);
  }

  /** The position of `k` among `ks`, if any. */
  function IndexOf(ks: seq<Key>, k: Key): (r: Option<nat>)
    ensures r.Some? ==> r.value < |ks| && ks[r.value] == k
    ensures r.None? ==> forall i :: 0 <= i < |ks| ==> ks[i] != k
  {
    if ks == [] then None
    else if ks[0] == k then Some(0)
    else match IndexOf(ks[1..], k)
      case None => None
      case Some(i) => Some(i + 1)
  }

  /** ManagerContractors.by_message: the record of the message's sender. */
  function Lookup(rs: seq<Record>, msg: Message): (r: Option<nat>)
    ensures r.Some? ==> r.value < |rs| && msg.replyTo == Some(rs[r.value].key)
    ensures r.None? ==> msg.replyTo.None? || forall i :: 0 <= i < |rs| ==> rs[i].key != msg.replyTo.value
  {
    if msg.replyTo.None? then None else IndexOf(Keys(rs), msg.replyTo.value)
  }

  predicate Known(rs: seq<Record>, msg: Message) {
    Lookup(rs, msg).Some?
  }

  /** With distinct keys, a sender has at most one record: the one Lookup finds. */
  lemma LookupUnique(rs: seq<Record>, msg: Message, i: nat)
    requires DistinctKeys(rs) && i < |rs| && msg.replyTo == Some(rs[i].key)
    ensures Lookup(rs, msg) == Some(i)
  {
  }

  /** ManagerContractors.with_state: the records whose state is one of `states`, in order. */
  function WithState(rs: seq<Record>, states: set<ContractorState>): (w: seq<Record>)
    ensures |w| <= |rs|
    ensures forall r :: r in w <==> r in rs && r.state in states
  {
    if rs == [] then []
    else
      var init, last := rs[..|rs| - 1], rs[|rs| - 1];
      assert rs == init + [last];
      WithState(init, states) + (if last.state in states then [last] else [])
  }

  /** No record has one of the states exactly when with_state returns nothing. */
  lemma WithStateEmpty(rs: seq<Record>, states: set<ContractorState>)
    ensures |WithState(rs, states)| == 0 <==> forall i :: 0 <= i < |rs| ==> rs[i].state !in states
  {
    if |WithState(rs, states)| == 0 {
      forall i | 0 <= i < |rs| ensures rs[i].state !in states {
        assert rs[i] in rs;
      }
    } else {
      var r := WithState(rs, states)[0];
      assert r in WithState(rs, states);
    }
  }

  /** The Bid (or Refusal) messages of the given records, in order. */
  function BidsOf(rs: seq<Record>): (bs: seq<Message>)
    ensures |bs| == |rs| && forall i :: 0 <= i < |rs| ==> bs[i] == rs[i].bid
  {
    seq(|rs|, i requires 0 <= i < |rs| => rs[i].bid)
  }

  /** The reports of the given records, in order. */
  function ReportsOf(rs: seq<Record>): (ps: seq<Option<Message>>)
    ensures |ps| == |rs| && forall i :: 0 <= i < |rs| ==> ps[i] == rs[i].report
  {
    seq(|rs|, i requires 0 <= i < |rs| => rs[i].report)
  }

  /** One copy of `msg` sent to each of the given records, in order. */
  function Notify(rs: seq<Record>, msg: Message): (s: seq<Sent>)
    ensures |s| == |rs| && forall i :: 0 <= i < |rs| ==> s[i] == Sent(To(rs[i].key), msg)
  {
    seq(|rs|, i requires 0 <= i < |rs| => Sent(To(rs[i].key), msg))
  }

  /** What follows a prefix of a log. */
  lemma AfterPrefix<T>(a: seq<T>, b: seq<T>)
    ensures (a + b)[..|a|] == a && (a + b)[|a|..] == b
  {
  }

  /** A copy goes to a key exactly when one of the records has that key. */
  lemma NotifyTo(rs: seq<Record>, msg: Message, k: Key)
    ensures Sent(To(k), msg) in Notify(rs, msg) <==> exists i :: 0 <= i < |rs| && rs[i].key == k
  {
    if exists i :: 0 <= i < |rs| && rs[i].key == k {
      var i :| 0 <= i < |rs| && rs[i].key == k;
      assert Notify(rs, msg)[i] == Sent(To(k), msg);
    }
  }

  /** The records after `msg` is delivered, in order, to every record whose state is in
      `states`, and what that sends: the loops
      `for contractor in self.contractors.with_state(...): contractor.on_event(msg)`. */
  function DeliverAll(rs: seq<Record>, states: set<ContractorState>, msg: Message): (res: (seq<Record>, seq<Sent>))
    ensures |res.0| == |rs|
  {
    if rs == [] then ([], [])
    else
      var prev := DeliverAll(rs[..|rs| - 1], states, msg);
      var step := Step(rs[|rs| - 1], states, msg);
      (prev.0 + [step.0], prev.1 + step.1)
  }

  /** One iteration of such a loop: the record takes the event only if its state is chosen. */
  function Step(r: Record, states: set<ContractorState>, msg: Message): (Record, seq<Sent>) {
    if r.state in states then OnEvent(r, msg) else (r, [])
  }

  /** The loop's step from the first `i` records to the first `i + 1`, with the rest untouched. */
  lemma DeliverAllStep(rs: seq<Record>, states: set<ContractorState>, msg: Message, i: nat)
    requires i < |rs|
    ensures (DeliverAll(rs[..i], states, msg).0 + rs[i..])[i := Step(rs[i], states, msg).0]
            == DeliverAll(rs[..i + 1], states, msg).0 + rs[i + 1..]
    ensures DeliverAll(rs[..i + 1], states, msg).1
            == DeliverAll(rs[..i], states, msg).1 + Step(rs[i], states, msg).1
  {
    assert rs[..i + 1][..i] == rs[..i];
  }

  /** Each record is delivered to on its own: a record in `states` takes its event, any other
      record is untouched. */
  lemma {:induction false} DeliverAllAt(rs: seq<Record>, states: set<ContractorState>, msg: Message, i: nat)
    requires i < |rs|
    ensures DeliverAll(rs, states, msg).0[i] ==
      if rs[i].state in states then OnEvent(rs[i], msg).0 else rs[i]
  {
    if i < |rs| - 1 {
      DeliverAllAt(rs[..|rs| - 1], states, msg, i);
    }
  }

  /** Delivery keeps every record's key, so the table keeps one record per key. */
  lemma DeliverAllKeys(rs: seq<Record>, states: set<ContractorState>, msg: Message)
    ensures Keys(DeliverAll(rs, states, msg).0) == Keys(rs)
    ensures DistinctKeys(rs) ==> DistinctKeys(DeliverAll(rs, states, msg).0)
  {
    var out := DeliverAll(rs, states, msg).0;
    forall i | 0 <= i < |rs| ensures out[i].key == rs[i].key && out[i].bid == rs[i].bid {
      DeliverAllAt(rs, states, msg, i);
      OnEventEdges(rs[i], msg);
    }
  }

  /** When the message is one its table sends on and every chosen state accepts it, delivery
      sends one copy to each chosen record and to no other. */
  lemma {:induction false} DeliverAllSent(rs: seq<Record>, states: set<ContractorState>, msg: Message)
    requires RecordRule(msg.kind).Some? && RecordRule(msg.kind).value.sends
    requires states <= RecordRule(msg.kind).value.before
    ensures DeliverAll(rs, states, msg).1 == Notify(WithState(rs, states), msg)
  {
    if rs != [] {
      var init, last := rs[..|rs| - 1], rs[|rs| - 1];
      DeliverAllSent(init, states, msg);
      assert Notify(WithState(rs, states), msg)
          == Notify(WithState(init, states), msg)
           + (if last.state in states then [Sent(To(last.key), msg)] else []);
    }
  }

  /** Every chosen record moves along its table's edge; every other record is untouched. */
  lemma DeliverAllStates(rs: seq<Record>, states: set<ContractorState>, msg: Message)
    requires RecordRule(msg.kind).Some? && states <= RecordRule(msg.kind).value.before
    ensures forall i :: 0 <= i < |rs| ==>
      if rs[i].state in states
      then DeliverAll(rs, states, msg).0[i].state == RecordRule(msg.kind).value.after
      else DeliverAll(rs, states, msg).0[i] == rs[i]
  {
    forall i | 0 <= i < |rs|
      ensures if rs[i].state in states
              then DeliverAll(rs, states, msg).0[i].state == RecordRule(msg.kind).value.after
              else DeliverAll(rs, states, msg).0[i] == rs[i]
    {
      DeliverAllAt(rs, states, msg, i);
    }
  }

  /** The first loop of AgencyManager.grant: every (bid, grant) pair, in order, delivers the
      grant, stamped with the deadline `exp`, to the record of the bid's sender. */
  function GrantAll(rs: seq<Record>, grants: seq<(Message, Message)>, exp: int): (res: (seq<Record>, seq<Sent>))
    requires forall j :: 0 <= j < |grants| ==> Known(rs, grants[j].0)
    ensures Keys(res.0) == Keys(rs)
    ensures forall s :: s in res.1 ==> s.Sent? && s.msg.expiration == Some(exp)
    decreases |grants|
  {
    if grants == [] then (rs, [])
    else
      var prev := GrantAll(rs, grants[..|grants| - 1], exp);
      assert Known(rs, grants[|grants| - 1].0);
      assert Lookup(prev.0, grants[|grants| - 1].0) == Lookup(rs, grants[|grants| - 1].0);
      var i := Lookup(prev.0, grants[|grants| - 1].0).value;
      var step := OnEvent(prev.0[i], grants[|grants| - 1].1.(expiration := Some(exp)));
      OnEventEdges(prev.0[i], grants[|grants| - 1].1.(expiration := Some(exp)));
      assert Keys(prev.0[i := step.0]) == Keys(prev.0);
      (prev.0[i := step.0], prev.1 + step.1)
  }

  /** Grants move records from `bid` to `granted` and touch nothing else; every entry sent
      is the Grant of one of the pairs, stamped with `exp`, addressed to the sender of that
      pair's bid. */
  lemma {:induction false} GrantAllStates(rs: seq<Record>, grants: seq<(Message, Message)>, exp: int)
    requires forall j :: 0 <= j < |grants| ==> Known(rs, grants[j].0)
    requires forall j :: 0 <= j < |grants| ==> grants[j].1.kind == Grant
    ensures |GrantAll(rs, grants, exp).0| == |rs|
    ensures forall i :: 0 <= i < |rs| ==>
      GrantAll(rs, grants, exp).0[i] == rs[i]
      || (rs[i].state == ContractorState.bid
          && GrantAll(rs, grants, exp).0[i] == rs[i].(state := ContractorState.granted))
    ensures forall s :: s in GrantAll(rs, grants, exp).1 ==>
      s.msg.kind == Grant
      && (exists j :: 0 <= j < |grants| && grants[j].0.replyTo.Some?
            && s == Sent(To(grants[j].0.replyTo.value), grants[j].1.(expiration := Some(exp))))
    decreases |grants|
  {
    if grants != [] {
      var init := grants[..|grants| - 1];
      var (b, g) := grants[|grants| - 1];
      GrantAllStates(rs, init, exp);
      var prev := GrantAll(rs, init, exp);
      assert Keys(prev.0) == Keys(rs);
      assert Lookup(prev.0, b) == Lookup(rs, b);
      var k := Lookup(prev.0, b).value;
      var gm := g.(expiration := Some(exp));
      OnEventEdges(prev.0[k], gm);
      assert prev.0[k].key == rs[k].key;
    }
  }

  /** Some (bid, grant) pair names the record at `i`: its bid came from that record's sender. */
  ghost predicate Named(rs: seq<Record>, grants: seq<(Message, Message)>, i: nat) {
    exists j :: 0 <= j < |grants| && Lookup(rs, grants[j].0) == Some(i)
  }

  /** The records the pairs name are those the shorter list names plus the last pair's. */
  lemma NamedSnoc(rs: seq<Record>, grants: seq<(Message, Message)>, i: nat)
    requires grants != []
    ensures Named(rs, grants, i) <==>
      Named(rs, grants[..|grants| - 1], i) || Lookup(rs, grants[|grants| - 1].0) == Some(i)
  {
    var init := grants[..|grants| - 1];
    if Named(rs, grants, i) {
      var j :| 0 <= j < |grants| && Lookup(rs, grants[j].0) == Some(i);
      if j < |init| {
        assert init[j] == grants[j];
      }
    }
    if Named(rs, init, i) {
      var j :| 0 <= j < |init| && Lookup(rs, init[j].0) == Some(i);
      assert grants[j] == init[j];
    }
  }

  /** The grant loop grants exactly the records its pairs name: a named record that was in
      `bid` ends `granted`, and a record no pair names is left as it was. */
  lemma {:induction false} GrantAllAt(rs: seq<Record>, grants: seq<(Message, Message)>, exp: int, i: nat)
    requires forall j :: 0 <= j < |grants| ==> Known(rs, grants[j].0)
    requires forall j :: 0 <= j < |grants| ==> grants[j].1.kind == Grant
    requires i < |rs|
    ensures |GrantAll(rs, grants, exp).0| == |rs|
    ensures !Named(rs, grants, i) ==> GrantAll(rs, grants, exp).0[i] == rs[i]
    ensures rs[i].state == ContractorState.bid && Named(rs, grants, i) ==>
      GrantAll(rs, grants, exp).0[i] == rs[i].(state := ContractorState.granted)
    decreases |grants|
  {
    GrantAllStates(rs, grants, exp);
    if grants != [] {
      var init := grants[..|grants| - 1];
      var (b, g) := grants[|grants| - 1];
      GrantAllAt(rs, init, exp, i);
      NamedSnoc(rs, grants, i);
      var prev := GrantAll(rs, init, exp);
      assert Keys(prev.0) == Keys(rs);
      assert Lookup(prev.0, b) == Lookup(rs, b);
      var k := Lookup(prev.0, b).value;
      var gm := g.(expiration := Some(exp));
      OnEventEdges(prev.0[k], gm);
      assert GrantAll(rs, grants, exp).0 == prev.0[k := OnEvent(prev.0[k], gm).0];
    }
  }

  /** The last pair's step of the grant loop, on the records the earlier pairs left. */
  lemma GrantAllLast(rs: seq<Record>, grants: seq<(Message, Message)>, exp: int)
    requires forall j :: 0 <= j < |grants| ==> Known(rs, grants[j].0)
    requires grants != []
    ensures Known(rs, grants[|grants| - 1].0)
    ensures var prev := GrantAll(rs, grants[..|grants| - 1], exp);
      var k := Lookup(rs, grants[|grants| - 1].0).value;
      && k < |prev.0|
      && GrantAll(rs, grants, exp).1
         == prev.1 + OnEvent(prev.0[k], grants[|grants| - 1].1.(expiration := Some(exp))).1
  {
    var b := grants[|grants| - 1].0;
    assert Known(rs, b);
    var prev := GrantAll(rs, grants[..|grants| - 1], exp);
    assert Lookup(prev.0, b) == Lookup(rs, b);
  }

  /** The entries the first `n` pairs send are the first entries the whole loop sends. */
  lemma {:induction false} GrantAllPrefix(rs: seq<Record>, grants: seq<(Message, Message)>, exp: int, n: nat)
    requires forall j :: 0 <= j < |grants| ==> Known(rs, grants[j].0)
    requires n <= |grants|
    ensures GrantAll(rs, grants[..n], exp).1 <= GrantAll(rs, grants, exp).1
    decreases |grants|
  {
    if n < |grants| {
      var init := grants[..|grants| - 1];
      assert init[..n] == grants[..n];
      GrantAllPrefix(rs, init, exp, n);
      GrantAllLast(rs, grants, exp);
    } else {
      assert grants[..n] == grants;
    }
  }

  /** The last pair, when no earlier pair names its record and that record is in `bid`,
      sends the record's sender its Grant, stamped with `exp`. */
  lemma GrantAllSendsLast(rs: seq<Record>, grants: seq<(Message, Message)>, exp: int)
    requires forall j :: 0 <= j < |grants| ==> Known(rs, grants[j].0)
    requires forall j :: 0 <= j < |grants| ==> grants[j].1.kind == Grant
    requires grants != [] && Known(rs, grants[|grants| - 1].0)
    requires rs[Lookup(rs, grants[|grants| - 1].0).value].state == ContractorState.bid
    requires !Named(rs, grants[..|grants| - 1], Lookup(rs, grants[|grants| - 1].0).value)
    ensures Sent(To(rs[Lookup(rs, grants[|grants| - 1].0).value].key),
                 grants[|grants| - 1].1.(expiration := Some(exp))) in GrantAll(rs, grants, exp).1
  {
    var init := grants[..|grants| - 1];
    var (b, g) := grants[|grants| - 1];
    var k := Lookup(rs, b).value;
    var gm := g.(expiration := Some(exp));
    GrantAllLast(rs, grants, exp);
    GrantAllAt(rs, init, exp, k);
    assert OnEvent(rs[k], gm).1 == [Sent(To(rs[k].key), gm)];
  }

  /** The first pair naming a record in `bid` sends that record's sender its Grant, stamped
      with `exp`. */
  lemma GrantAllSendsFirst(rs: seq<Record>, grants: seq<(Message, Message)>, exp: int, j: nat)
    requires forall j :: 0 <= j < |grants| ==> Known(rs, grants[j].0)
    requires forall j :: 0 <= j < |grants| ==> grants[j].1.kind == Grant
    requires j < |grants|
    requires Known(rs, grants[j].0) && rs[Lookup(rs, grants[j].0).value].state == ContractorState.bid
    requires forall j' :: 0 <= j' < j ==> Lookup(rs, grants[j'].0) != Lookup(rs, grants[j].0)
    ensures Sent(To(rs[Lookup(rs, grants[j].0).value].key), grants[j].1.(expiration := Some(exp)))
      in GrantAll(rs, grants, exp).1
  {
    var pre := grants[..j + 1];
    var k := Lookup(rs, grants[j].0).value;
    assert pre[j] == grants[j];
    assert !Named(rs, pre[..j], k) by {
      forall j' | 0 <= j' < j ensures Lookup(rs, pre[..j][j'].0) != Some(k) {
        assert pre[..j][j'] == grants[j'];
      }
    }
    GrantAllSendsLast(rs, pre, exp);
    GrantAllPrefix(rs, grants, exp, j + 1);
  }

  /** Python 2 orders None below every number: the later of two optional times. */
  function Later(a: Option<int>, b: Option<int>): Option<int> {
    if a.None? then b
    else if b.None? then a
    else if a.value >= b.value then a
    else b
  }

  /** `a` sorts no later than `b` under Python 2's ordering. */
  predicate NotAfter(a: Option<int>, b: Option<int>) {
    a.None? || (b.Some? && a.value <= b.value)
  }

  /** `max([x.bid.expiration_time for x in rs])`. */
  function MaxExpiration(rs: seq<Record>): (e: Option<int>)
    requires rs != []
    ensures forall r :: r in rs ==> NotAfter(r.bid.expiration, e)
    ensures exists r :: r in rs && r.bid.expiration == e
  {
    if |rs| == 1 then rs[0].bid.expiration
    else
      var init, last := rs[..|rs| - 1], rs[|rs| - 1];
      assert rs == init + [last];
      assert last in rs;
      var m := MaxExpiration(init);
      assert forall r :: r in init ==> r in rs;
      Later(m, last.bid.expiration)
  }

  /** ManagerContractors.get_expiration_time: the latest expiration among the records in
      `bid`; like `max` of an empty list it is undefined when no record is in `bid`. */
  function GetExpirationTime(rs: seq<Record>): (e: Option<int>)
    requires |WithState(rs, {ContractorState.bid})| > 0
    ensures forall i :: 0 <= i < |rs| && rs[i].state == ContractorState.bid ==> NotAfter(rs[i].bid.expiration, e)
    ensures exists i :: 0 <= i < |rs| && rs[i].state == ContractorState.bid && rs[i].bid.expiration == e
  {
    var w := WithState(rs, {ContractorState.bid});
    var e := MaxExpiration(w);
    assert forall i :: 0 <= i < |rs| && rs[i].state == ContractorState.bid ==> rs[i] in w;
    e
  }
}
