/** The two sides of the protocol together: what a manager sends in one step is what the
    contractor acts on in the next. */
module Negotiation {
  import opened Wrappers
  import opened ContractTypes
  import M = ContractManager
  import C = ContractContractor
  import MP = ManagerProperties
  import CP = ContractorProperties

  /** A Grant that AgencyManager.grant sends, once delivered (the transport stamps it with
      the manager's address `managerKey`, as every message grant() sends goes out with
      `_send_message`) to a contractor that has bid, grants it with the
      manager's own grant deadline: both ends time out at the same instant, the manager
      to `aborted` and the contractor to `expired`, and the contractor now answers to
      `managerKey`. */
  lemma GrantDeadlineShared(m: M.Manager, cfg: M.Config, grants: seq<(Message, Message)>, now: int,
                            s: Sent, c: C.Contractor, managerKey: Key)
    requires m.state in {ContractState.closed, ContractState.announced}
    requires forall j :: 0 <= j < |grants| ==> Known(m.contractors, grants[j].0)
    requires forall j :: 0 <= j < |grants| ==> grants[j].1.kind == Grant
    requires |M.GrantSpec(m, cfg, grants, now).outbox| >= |m.outbox|
    requires s in M.GrantSpec(m, cfg, grants, now).outbox[|m.outbox|..] && s.msg.kind == Grant
    requires c.state == ContractState.bid
    ensures s.Sent?
    ensures s.Sent? ==>
      var m' := M.GrantSpec(m, cfg, grants, now);
      var c' := C.OnMessageSpec(c, Delivered(s, managerKey));
      && c'.state == ContractState.granted
      && c'.manager == managerKey
      && c'.expiration.Some? && m'.expiration.Some?
      && c'.expiration.value.at == m'.expiration.value.at == Some(M.GrantDeadline(cfg, now))
      && c'.expiration.value.target == Some(ContractState.expired)
      && m'.expiration.value.target == Some(ContractState.aborted)
  {
    MP.GrantOutcome(m, cfg, grants, now);
    MP.GrantSent(m, cfg, grants, now);
    var g := GrantAll(m.contractors, grants, M.GrantDeadline(cfg, now));
    var n := Notify(WithState(g.0, {ContractorState.bid}), NewMessage(Rejection));
    assert M.GrantSpec(m, cfg, grants, now).outbox[|m.outbox|..] == g.1 + n;
    assert s.Sent?;
    CP.GrantOutcome(c, Delivered(s, managerKey));
  }

  /** The bid a contractor sends carries its own expiration; a manager that records it
      while announced and then closes will expire no earlier than that bid. */
  lemma BidExpirationBoundsClose(c: C.Contractor, bidTimeout: int, bid: Message, now: int,
                                 m: M.Manager, cfg: M.Config, contractorKey: Key)
    requires c.state == ContractState.announced && bid.kind == Bid
    requires m.state == ContractState.announced
    ensures var c' := C.BidSpec(c, bidTimeout, bid, now);
      var sent := Delivered(c'.outbox[|c'.outbox| - 1], contractorKey);
      var m1 := M.OnMessageSpec(m, cfg, sent);
      var m2 := M.GotoClosedOrExpiredSpec(m1);
      !Known(m.contractors, sent) && m1.state == ContractState.announced ==>
        m2.state == ContractState.closed && m2.expiration.Some? && m2.expiration.value.at.Some?
        && m2.expiration.value.at.value >= now + bidTimeout
  {
    var c' := C.BidSpec(c, bidTimeout, bid, now);
    var sent := Delivered(c'.outbox[|c'.outbox| - 1], contractorKey);
    assert sent == bid.(expiration := Some(now + bidTimeout), replyTo := Some(contractorKey));
    var m1 := M.OnMessageSpec(m, cfg, sent);
    if !Known(m.contractors, sent) && m1.state == ContractState.announced {
      var rs := m1.contractors;
      assert rs[|rs| - 1] == M.NewRecord(sent, ContractorState.bid);
      assert rs[|rs| - 1] in WithState(rs, {ContractorState.bid});
    }
  }

  /** A bid that a contractor hands over reaches the manager with the nested contractor's
      reply-to address, not the delegating contractor's: a manager that has no record for
      the nested contractor adds one, keyed by that address and holding the bid. */
  lemma HandoverRecordedForNestedContractor(c: C.Contractor, bid: Message, m: M.Manager, cfg: M.Config,
                                            contractorKey: Key)
    requires c.state == ContractState.announced && bid.kind == Bid && bid.replyTo.Some?
    requires m.state == ContractState.announced && !Known(m.contractors, bid)
    ensures var c' := C.HandoverSpec(c, bid);
      var received := Delivered(c'.outbox[|c'.outbox| - 1], contractorKey);
      var m' := M.OnMessageSpec(m, cfg, received);
      && received == bid
      && |m'.contractors| == |m.contractors| + 1
      && m'.contractors[|m.contractors|] == M.NewRecord(bid, ContractorState.bid)
      && m'.contractors[|m.contractors|].key == bid.replyTo.value
  {
    var c' := C.HandoverSpec(c, bid);
    assert c'.outbox[|c'.outbox| - 1] == HandedOver(To(c.manager), bid);
    assert Delivered(c'.outbox[|c'.outbox| - 1], contractorKey) == bid;
    var m1 := m.(contractors := m.contractors + [M.NewRecord(bid, ContractorState.bid)],
                 calls := m.calls + [M.BidCall(bid)]);
    assert M.OnMessageSpec(m, cfg, bid) == M.CheckCloseSpec(m1, cfg);
    MP.CloseOutcome(m1.(expiration := None));
    assert M.CheckCloseSpec(m1, cfg).contractors == m1.contractors;
  }
}
