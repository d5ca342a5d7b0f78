/**
  Properties of the manager side of the contract-net protocol, stated on the
  specification functions of ContractManager (and so on every AgencyManager,
  whose methods are proved to follow them).
*/
module ManagerProperties {
  import opened Wrappers
  import opened ContractTypes
  import opened ContractManager

  /** Messages that add a record for their sender while the announce window is open. */
  predicate Answer(msg: Message) {
    msg.kind in {Bid, Refusal, Duplicate} && msg.replyTo.Some?
  }

  /** At most one record per contractor: a second Bid, Refusal or Duplicate from a
      contractor that already has a record leaves the manager as it was (the record
      constructor raises for a known key; _on_duplicate ignores it). */
  lemma KnownContractorAnswerIgnored(m: Manager, cfg: Config, msg: Message)
    requires Answer(msg) && Known(m.contractors, msg)
    ensures OnMessageSpec(m, cfg, msg) == m
  {
  }

  /** A Duplicate from a contractor without a record is recorded as a refusal from it, and
      the business manager is not told of a bid. */
  lemma DuplicateFromNewContractorRefused(m: Manager, cfg: Config, msg: Message)
    requires m.state == ContractState.announced && msg.kind == Duplicate && msg.replyTo.Some?
    requires !Known(m.contractors, msg)
    ensures var m' := OnMessageSpec(m, cfg, msg);
      && m'.contractors == m.contractors + [Record(msg.replyTo.value, msg, ContractorState.refused, None)]
      && (m'.calls == m.calls || m'.calls == m.calls + [ClosedCall] || m'.calls == m.calls + [ExpiredCall])
  {
  }

  /** Closing the announce window, by quorum or by timeout: `closed` exactly when some
      record is in `bid`, with an expiration call at the latest bid deadline; otherwise
      `expired`, with expired() called and the medium unregistered. */
  lemma CloseOutcome(m: Manager)
    ensures var m' := GotoClosedOrExpiredSpec(m);
      && m'.contractors == m.contractors && m'.outbox == m.outbox
      && (m'.state == ContractState.closed <==>
          exists i :: 0 <= i < |m.contractors| && m.contractors[i].state == ContractorState.bid)
      && (m'.state == ContractState.closed ==>
          && m'.calls == m.calls + [ClosedCall] && m'.registered == m.registered
          && m'.expiration.Some? && m'.expiration.value.target == Some(ContractState.expired)
          && (forall i :: 0 <= i < |m.contractors| && m.contractors[i].state == ContractorState.bid
                ==> NotAfter(m.contractors[i].bid.expiration, m'.expiration.value.at))
          && (exists i :: 0 <= i < |m.contractors| && m.contractors[i].state == ContractorState.bid
                && m.contractors[i].bid.expiration == m'.expiration.value.at))
      && (m'.state != ContractState.closed ==>
          && m'.state == ContractState.expired && m'.calls == m.calls + [ExpiredCall]
          && !m'.registered && m'.expiration.None?)
  {
    WithStateEmpty(m.contractors, {ContractorState.bid});
  }

  /** The announce window closes early exactly when the number of records (bids and
      refusals alike) reaches the expected count; an unknown (None) or zero count never
      closes it early. */
  lemma EarlyClose(m: Manager, cfg: Config, msg: Message)
    requires m.state == ContractState.announced && Answer(msg) && !Known(m.contractors, msg)
    ensures var m' := OnMessageSpec(m, cfg, msg);
      && |m'.contractors| == |m.contractors| + 1
      && m'.contractors[..|m.contractors|] == m.contractors
      && m'.contractors[|m.contractors|].key == msg.replyTo.value
      && (m'.state != ContractState.announced <==> ShouldClose(cfg.expectedBids, |m.contractors| + 1))
      && ((cfg.expectedBids.None? || cfg.expectedBids == Some(0)) ==> m'.state == ContractState.announced)
      && (m'.state != ContractState.announced ==>
          m'.state == GotoClosedOrExpiredSpec(m'.(state := m.state)).state)
  {
    var s := if msg.kind == Bid then ContractorState.bid else ContractorState.refused;
    var rs := m.contractors + [NewRecord(msg, s)];
    assert rs[..|m.contractors|] == m.contractors;
    var m1 := if msg.kind == Bid then m.(contractors := rs, calls := m.calls + [BidCall(msg)])
              else m.(contractors := rs);
    assert OnMessageSpec(m, cfg, msg) == CheckCloseSpec(m1, cfg);
    if ShouldClose(cfg.expectedBids, |rs|) {
      var m' := GotoClosedOrExpiredSpec(m1.(expiration := None));
      assert m'.state in {ContractState.closed, ContractState.expired};
      assert GotoClosedOrExpiredSpec(m'.(state := m.state)).state == m'.state;
    }
  }

  /** The announce window's expiration call (which sets no state on firing) closes the
      window: the medium goes on as _goto_closed_or_expired says. The other expiration calls
      set their state and terminate the medium. */
  lemma TimerOutcome(m: Manager)
    requires Inv(m) && m.expiration.Some?
    ensures var m' := ExpireSpec(m);
      match m.expiration.value.action
      case InitiateTimeout =>
        m' == Unregistered(m.(state := ContractState.wtf))
      case AnnounceWindow =>
        m' == GotoClosedOrExpiredSpec(m.(expiration := None))
      case CloseWindow =>
        m' == Unregistered(m.(state := ContractState.expired, calls := m.calls + [ExpiredCall]))
      case GrantWindow =>
        m' == Unregistered(m.(state := ContractState.aborted, calls := m.calls + [AbortedCall]))
  {
  }

  /** announce(): from `initiated` one announcement goes to the recipients, carrying a
      traversal id (the caller's, or a fresh one) and the announce deadline, and the
      window's expiration call is set; from any other state the medium fails. */
  lemma AnnounceOutcome(m: Manager, cfg: Config, ann: Message, freshId: string, now: int)
    ensures var m' := AnnounceSpec(m, cfg, ann, freshId, now);
      if m.state == ContractState.initiated then
        && m'.state == ContractState.announced
        && |m'.outbox| == |m.outbox| + 1 && m'.outbox[..|m.outbox|] == m.outbox
        && m'.outbox[|m.outbox|].to == Recipients
        && m'.outbox[|m.outbox|].msg.traversalId.Some?
        && (ann.traversalId.Some? ==> m'.outbox[|m.outbox|].msg.traversalId == ann.traversalId)
        && m'.outbox[|m.outbox|].msg.expiration == Some(now + cfg.announceTimeout)
        && m'.outbox[|m.outbox|].msg.kind == ann.kind
        && m'.expiration == Some(Timer(Some(now + cfg.announceTimeout), None, AnnounceWindow))
      else
        m'.state == ContractState.wtf && !m'.registered && m'.outbox == m.outbox
  {
    if m.state == ContractState.initiated {
      var m' := AnnounceSpec(m, cfg, ann, freshId, now);
      assert m'.outbox[..|m.outbox|] == m.outbox;
    }
  }

  /** What grant() does to the records: a record in `bid` is granted when one of the pairs
      names it and rejected otherwise; records in any other state are left alone. */
  lemma GrantRecords(m: Manager, cfg: Config, grants: seq<(Message, Message)>, now: int, i: nat)
    requires m.state in {ContractState.closed, ContractState.announced}
    requires forall j :: 0 <= j < |grants| ==> Known(m.contractors, grants[j].0)
    requires forall j :: 0 <= j < |grants| ==> grants[j].1.kind == Grant
    requires i < |m.contractors|
    ensures var m' := GrantSpec(m, cfg, grants, now);
      && |m'.contractors| == |m.contractors|
      && m'.contractors[i] ==
           if m.contractors[i].state != ContractorState.bid then m.contractors[i]
           else if Named(m.contractors, grants, i) then m.contractors[i].(state := ContractorState.granted)
           else m.contractors[i].(state := ContractorState.rejected)
  {
    var g := GrantAll(m.contractors, grants, GrantDeadline(cfg, now));
    var rej := NewMessage(Rejection);
    GrantSpecGranted(m, cfg, grants, now);
    GrantAllStates(m.contractors, grants, GrantDeadline(cfg, now));
    GrantAllAt(m.contractors, grants, GrantDeadline(cfg, now), i);
    DeliverAllAt(g.0, {ContractorState.bid}, rej, i);
    if m.contractors[i].state != ContractorState.bid || Named(m.contractors, grants, i) {
      assert g.0[i].state != ContractorState.bid;
    } else {
      assert g.0[i] == m.contractors[i];
      assert OnEvent(g.0[i], rej).0 == m.contractors[i].(state := ContractorState.rejected);
    }
  }

  /** What grant() sends: the Grants, each with the deadline, then one Rejection to each
      record still in `bid`. */
  lemma GrantSent(m: Manager, cfg: Config, grants: seq<(Message, Message)>, now: int)
    requires m.state in {ContractState.closed, ContractState.announced}
    requires forall j :: 0 <= j < |grants| ==> Known(m.contractors, grants[j].0)
    requires forall j :: 0 <= j < |grants| ==> grants[j].1.kind == Grant
    ensures var g := GrantAll(m.contractors, grants, GrantDeadline(cfg, now));
      var m' := GrantSpec(m, cfg, grants, now);
      && m'.outbox == m.outbox + (g.1 + Notify(WithState(g.0, {ContractorState.bid}), NewMessage(Rejection)))
      && (forall s :: s in g.1 ==> s.msg.kind == Grant && s.msg.expiration == Some(GrantDeadline(cfg, now)))
  {
    var g := GrantAll(m.contractors, grants, GrantDeadline(cfg, now));
    GrantSpecGranted(m, cfg, grants, now);
    GrantAllStates(m.contractors, grants, GrantDeadline(cfg, now));
    DeliverAllSent(g.0, {ContractorState.bid}, NewMessage(Rejection));
    var n := Notify(WithState(g.0, {ContractorState.bid}), NewMessage(Rejection));
    assert m.outbox + g.1 + n == m.outbox + (g.1 + n);
  }

  /** The Rejection grant() sends to a record it rejects. */
  lemma GrantRejectionSent(m: Manager, cfg: Config, grants: seq<(Message, Message)>, now: int, i: nat)
    requires m.state in {ContractState.closed, ContractState.announced}
    requires forall j :: 0 <= j < |grants| ==> Known(m.contractors, grants[j].0)
    requires forall j :: 0 <= j < |grants| ==> grants[j].1.kind == Grant
    requires i < |m.contractors| && m.contractors[i].state == ContractorState.bid
    requires GrantSpec(m, cfg, grants, now).contractors[i].state == ContractorState.rejected
    ensures var m' := GrantSpec(m, cfg, grants, now);
      |m'.outbox| >= |m.outbox| && Sent(To(m.contractors[i].key), NewMessage(Rejection)) in m'.outbox[|m.outbox|..]
  {
    var exp := GrantDeadline(cfg, now);
    var g := GrantAll(m.contractors, grants, exp);
    var rej := NewMessage(Rejection);
    var w := WithState(g.0, {ContractorState.bid});
    GrantRecords(m, cfg, grants, now, i);
    GrantSent(m, cfg, grants, now);
    assert !Named(m.contractors, grants, i);
    GrantAllAt(m.contractors, grants, exp, i);
    assert g.0[i] == m.contractors[i];
    assert g.0[i] in w;
    NotifyTo(w, rej, m.contractors[i].key);
    AfterPrefix(m.outbox, g.1 + Notify(w, rej));
  }

  /** grant() enters `granted`, arms the grant deadline, keeps the records' count and the
      outbox so far, and stamps every Grant it sends with that deadline. */
  lemma GrantEntered(m: Manager, cfg: Config, grants: seq<(Message, Message)>, now: int)
    requires m.state in {ContractState.closed, ContractState.announced}
    requires forall j :: 0 <= j < |grants| ==> Known(m.contractors, grants[j].0)
    requires forall j :: 0 <= j < |grants| ==> grants[j].1.kind == Grant
    ensures var m' := GrantSpec(m, cfg, grants, now);
      && m'.state == ContractState.granted
      && m'.expiration == Some(Timer(Some(GrantDeadline(cfg, now)), Some(ContractState.aborted), GrantWindow))
      && |m'.contractors| == |m.contractors|
      && |m'.outbox| >= |m.outbox| && m'.outbox[..|m.outbox|] == m.outbox
      && (forall s :: s in m'.outbox[|m.outbox|..] && s.msg.kind == Grant
            ==> s.msg.expiration == Some(GrantDeadline(cfg, now)))
  {
    var g := GrantAll(m.contractors, grants, GrantDeadline(cfg, now));
    var w := WithState(g.0, {ContractorState.bid});
    GrantSpecGranted(m, cfg, grants, now);
    GrantSent(m, cfg, grants, now);
    AfterPrefix(m.outbox, g.1 + Notify(w, NewMessage(Rejection)));
  }

  /** The Grant grant() sends for the first pair naming a record in `bid`. */
  lemma GrantPairSent(m: Manager, cfg: Config, grants: seq<(Message, Message)>, now: int, j: nat)
    requires m.state in {ContractState.closed, ContractState.announced}
    requires forall j :: 0 <= j < |grants| ==> Known(m.contractors, grants[j].0)
    requires forall j :: 0 <= j < |grants| ==> grants[j].1.kind == Grant
    requires j < |grants| && Known(m.contractors, grants[j].0)
    requires m.contractors[Lookup(m.contractors, grants[j].0).value].state == ContractorState.bid
    requires forall j' :: 0 <= j' < j ==> Lookup(m.contractors, grants[j'].0) != Lookup(m.contractors, grants[j].0)
    ensures var m' := GrantSpec(m, cfg, grants, now);
      && |m'.outbox| >= |m.outbox|
      && Sent(To(m.contractors[Lookup(m.contractors, grants[j].0).value].key),
              grants[j].1.(expiration := Some(GrantDeadline(cfg, now)))) in m'.outbox[|m.outbox|..]
  {
    var g := GrantAll(m.contractors, grants, GrantDeadline(cfg, now));
    var n := Notify(WithState(g.0, {ContractorState.bid}), NewMessage(Rejection));
    GrantSent(m, cfg, grants, now);
    AfterPrefix(m.outbox, g.1 + n);
    GrantAllSendsFirst(m.contractors, grants, GrantDeadline(cfg, now), j);
  }

  /** grant() from `closed` or `announced`: the contract is granted with a new deadline,
      every Grant sent carries that deadline, a record in `bid` that one of the pairs names
      is granted and sent the first such pair's Grant, every other record in `bid` is
      rejected and sent a Rejection, and records in any other state are left alone; so no
      record remains in `bid`. */
  lemma GrantOutcome(m: Manager, cfg: Config, grants: seq<(Message, Message)>, now: int)
    requires m.state in {ContractState.closed, ContractState.announced}
    requires forall j :: 0 <= j < |grants| ==> Known(m.contractors, grants[j].0)
    requires forall j :: 0 <= j < |grants| ==> grants[j].1.kind == Grant
    ensures var m' := GrantSpec(m, cfg, grants, now);
      && m'.state == ContractState.granted
      && m'.expiration == Some(Timer(Some(GrantDeadline(cfg, now)), Some(ContractState.aborted), GrantWindow))
      && |m'.contractors| == |m.contractors|
      && |m'.outbox| >= |m.outbox| && m'.outbox[..|m.outbox|] == m.outbox
      && (forall s :: s in m'.outbox[|m.outbox|..] && s.msg.kind == Grant
            ==> s.msg.expiration == Some(GrantDeadline(cfg, now)))
      && (forall i :: 0 <= i < |m'.contractors| ==> m'.contractors[i].state != ContractorState.bid)
      && (forall i :: 0 <= i < |m.contractors| && m.contractors[i].state != ContractorState.bid
            ==> m'.contractors[i] == m.contractors[i])
      && (forall i :: 0 <= i < |m.contractors| && m.contractors[i].state == ContractorState.bid
            ==> m'.contractors[i] == if Named(m.contractors, grants, i)
                                     then m.contractors[i].(state := ContractorState.granted)
                                     else m.contractors[i].(state := ContractorState.rejected))
      && (forall i :: 0 <= i < |m.contractors| && m'.contractors[i].state == ContractorState.rejected
                      && m.contractors[i].state == ContractorState.bid
            ==> Sent(To(m.contractors[i].key), NewMessage(Rejection)) in m'.outbox[|m.outbox|..])
      && (forall j :: 0 <= j < |grants| && Known(m.contractors, grants[j].0)
                      && m.contractors[Lookup(m.contractors, grants[j].0).value].state == ContractorState.bid
                      && (forall j' :: 0 <= j' < j ==> Lookup(m.contractors, grants[j'].0) != Lookup(m.contractors, grants[j].0))
            ==> Sent(To(m.contractors[Lookup(m.contractors, grants[j].0).value].key),
                     grants[j].1.(expiration := Some(GrantDeadline(cfg, now)))) in m'.outbox[|m.outbox|..])
  {
    var m' := GrantSpec(m, cfg, grants, now);
    GrantEntered(m, cfg, grants, now);
    forall i | 0 <= i < |m.contractors|
      ensures m'.contractors[i].state != ContractorState.bid
      ensures m.contractors[i].state != ContractorState.bid ==> m'.contractors[i] == m.contractors[i]
      ensures m.contractors[i].state == ContractorState.bid
              ==> m'.contractors[i] == if Named(m.contractors, grants, i)
                                       then m.contractors[i].(state := ContractorState.granted)
                                       else m.contractors[i].(state := ContractorState.rejected)
    {
      GrantRecords(m, cfg, grants, now, i);
    }
    forall j | 0 <= j < |grants| && Known(m.contractors, grants[j].0)
                 && m.contractors[Lookup(m.contractors, grants[j].0).value].state == ContractorState.bid
                 && (forall j' :: 0 <= j' < j ==> Lookup(m.contractors, grants[j'].0) != Lookup(m.contractors, grants[j].0))
      ensures Sent(To(m.contractors[Lookup(m.contractors, grants[j].0).value].key),
                   grants[j].1.(expiration := Some(GrantDeadline(cfg, now)))) in m'.outbox[|m.outbox|..]
    {
      GrantPairSent(m, cfg, grants, now, j);
    }
    forall i | 0 <= i < |m.contractors| && m'.contractors[i].state == ContractorState.rejected
                 && m.contractors[i].state == ContractorState.bid
      ensures Sent(To(m.contractors[i].key), NewMessage(Rejection)) in m'.outbox[|m.outbox|..]
    {
      GrantRejectionSent(m, cfg, grants, now, i);
    }
  }

  /** A FinalReport from the sender of record `i` while `granted`: the record goes from
      `granted` to `completed` keeping the report; the manager completes (on_complete, see
      CompleteOutcome) exactly when no record is left `granted`, and otherwise only keeps
      the updated records. */
  lemma ReportOutcome(m: Manager, cfg: Config, msg: Message, i: nat)
    requires m.state == ContractState.granted && msg.kind == FinalReport
    requires Deliverable(m, msg) && Lookup(m.contractors, msg) == Some(i)
    ensures var rs := Reported(m.contractors, i, msg);
      var m' := OnMessageSpec(m, cfg, msg);
      && (m.contractors[i].state == ContractorState.granted
          ==> rs[i] == m.contractors[i].(state := ContractorState.completed, report := Some(msg)))
      && (m.contractors[i].state != ContractorState.granted ==> rs == m.contractors)
      && (m'.state == ContractState.completed <==>
          forall j :: 0 <= j < |rs| ==> rs[j].state != ContractorState.granted)
      && (m'.state == ContractState.completed ==> m' == OnCompleteSpec(m.(contractors := rs)))
      && (m'.state != ContractState.completed ==> m' == m.(contractors := rs))
  {
    var rs := Reported(m.contractors, i, msg);
    assert OnMessageSpec(m, cfg, msg) == OnReportSpec(m, msg);
    OnEventEdges(m.contractors[i], msg);
    WithStateEmpty(rs, {ContractorState.granted});
    if |WithState(rs, {ContractorState.granted})| == 0 {
      CompleteOutcome(m.(contractors := rs));
    }
  }

  /** on_complete in `granted`: exactly the `completed` records are acknowledged and their
      reports handed to completed(); the medium then unregisters. */
  lemma CompleteOutcome(m: Manager)
    requires m.state == ContractState.granted
    ensures var m' := OnCompleteSpec(m);
      var done := WithState(m.contractors, {ContractorState.completed});
      && m'.state == ContractState.completed
      && m'.outbox == m.outbox + Notify(done, NewMessage(Acknowledgement))
      && m'.calls == m.calls + [CompletedCall(ReportsOf(done))]
      && !m'.registered
      && |m'.contractors| == |m.contractors|
      && (forall j :: 0 <= j < |m.contractors| && m.contractors[j].state == ContractorState.completed
            ==> m'.contractors[j] == m.contractors[j].(state := ContractorState.acknowledged))
      && (forall j :: 0 <= j < |m.contractors| && m.contractors[j].state != ContractorState.completed
            ==> m'.contractors[j] == m.contractors[j])
  {
    var rs := m.contractors;
    var ack := NewMessage(Acknowledgement);
    DeliverAllSent(rs, {ContractorState.completed}, ack);
    DeliverAllStates(rs, {ContractorState.completed}, ack);
    forall j | 0 <= j < |rs| && rs[j].state == ContractorState.completed
      ensures DeliverAll(rs, {ContractorState.completed}, ack).0[j] == rs[j].(state := ContractorState.acknowledged)
    {
      DeliverAllAt(rs, {ContractorState.completed}, ack, j);
    }
  }

  /** A FinalReport from a contractor without a record changes nothing. */
  lemma ReportFromUnknownIgnored(m: Manager, cfg: Config, msg: Message)
    requires msg.kind == FinalReport && Deliverable(m, msg) && !Known(m.contractors, msg)
    ensures OnMessageSpec(m, cfg, msg) == m
  {
  }

  /** terminate(): every record in `bid`, and only those, is rejected and sent a
      Rejection; the medium is terminated unless it had already expired, been cancelled,
      been aborted or failed. */
  lemma TerminateOutcome(m: Manager)
    ensures var m' := TerminateSpec(m);
      && |m'.contractors| == |m.contractors|
      && (forall i :: 0 <= i < |m.contractors| ==>
            m'.contractors[i] == if m.contractors[i].state == ContractorState.bid
                                 then m.contractors[i].(state := ContractorState.rejected)
                                 else m.contractors[i])
      && m'.outbox == m.outbox + Notify(WithState(m.contractors, {ContractorState.bid}), NewMessage(Rejection))
      && m'.calls == m.calls
      && m'.state == (if Finished(m.state) then m.state else ContractState.terminated)
      && (!Finished(m.state) ==> !m'.registered)
  {
    var rej := NewMessage(Rejection);
    DeliverAllSent(m.contractors, {ContractorState.bid}, rej);
    forall i | 0 <= i < |m.contractors|
      ensures DeliverAll(m.contractors, {ContractorState.bid}, rej).0[i]
              == if m.contractors[i].state == ContractorState.bid
                 then m.contractors[i].(state := ContractorState.rejected) else m.contractors[i]
    {
      DeliverAllAt(m.contractors, {ContractorState.bid}, rej, i);
    }
  }

  /** elect() of a known bid marks its record `elected` and touches no other record; an
      elected record is then left alone by terminate(): it is neither rejected nor sent a
      Rejection. */
  lemma ElectThenTerminate(m: Manager, bid: Message, i: nat)
    requires DistinctKeys(m.contractors) && Lookup(m.contractors, bid) == Some(i)
    ensures var e := ElectSpec(m, bid);
      && e.contractors == m.contractors[i := m.contractors[i].(state := ContractorState.elected)]
      && TerminateSpec(e).contractors[i] == e.contractors[i]
      && Sent(To(m.contractors[i].key), NewMessage(Rejection)) !in TerminateSpec(e).outbox[|m.outbox|..]
  {
    var e := ElectSpec(m, bid);
    var rej := NewMessage(Rejection);
    var key := m.contractors[i].key;
    var w := WithState(e.contractors, {ContractorState.bid});
    DeliverAllAt(e.contractors, {ContractorState.bid}, rej, i);
    DeliverAllSent(e.contractors, {ContractorState.bid}, rej);
    assert TerminateSpec(e).outbox[|m.outbox|..] == Notify(w, rej);
    forall k | 0 <= k < |w| ensures w[k].key != key {
      assert w[k] in e.contractors;
      var j :| 0 <= j < |e.contractors| && e.contractors[j] == w[k];
      assert j != i;
    }
    NotifyTo(w, rej, key);
  }

  /** cancel() from `granted` or `cancelled`: every record that is `granted` or `completed`
      is cancelled and sent the Cancellation, no other record changes, cancelled() is
      called with it and the medium unregisters. */
  lemma CancelOutcome(m: Manager, reason: string)
    requires m.state in {ContractState.granted, ContractState.cancelled} && CanCancel(m.contractors)
    ensures var m' := CancelSpec(m, reason);
      && m'.state == ContractState.cancelled && !m'.registered && m'.expiration.None?
      && |m'.contractors| == |m.contractors|
      && (forall i :: 0 <= i < |m.contractors| ==>
            m'.contractors[i] ==
              if m.contractors[i].state in {ContractorState.granted, ContractorState.completed}
              then m.contractors[i].(state := ContractorState.cancelled) else m.contractors[i])
      && m'.outbox == m.outbox + Notify(WithState(m.contractors, {ContractorState.granted, ContractorState.completed}),
                                        CancelMsg(reason))
      && m'.calls == m.calls + [CancelledCall(CancelMsg(reason))]
  {
    var states := {ContractorState.granted, ContractorState.completed};
    DeliverAllSent(m.contractors, states, CancelMsg(reason));
    forall i | 0 <= i < |m.contractors|
      ensures DeliverAll(m.contractors, states, CancelMsg(reason)).0[i]
              == if m.contractors[i].state in states
                 then m.contractors[i].(state := ContractorState.cancelled) else m.contractors[i]
    {
      DeliverAllAt(m.contractors, states, CancelMsg(reason), i);
    }
  }

  /** A Cancellation from a contractor while `granted` cancels the whole contract, passing
      the contractor's reason on to cancel(). */
  lemma ContractorCancellation(m: Manager, cfg: Config, msg: Message)
    requires m.state == ContractState.granted && msg.kind == Cancellation && Deliverable(m, msg)
    ensures OnMessageSpec(m, cfg, msg) == CancelSpec(m, OtherCancelled(msg.payload))
  {
  }

  /** Every operation that checks its state first fails from any other state: the medium
      goes to `wtf` and unregisters, and no record and no message changes. */
  lemma WrongStateFails(m: Manager, cfg: Config, ann: Message, freshId: string, now: int,
                        bid: Message, rejection: Option<Message>,
                        grants: seq<(Message, Message)>, reason: string)
    ensures m.state != ContractState.initiated ==> AnnounceSpec(m, cfg, ann, freshId, now) == Failed(m)
    ensures m.state !in {ContractState.announced, ContractState.granted, ContractState.closed}
            ==> RejectSpec(m, bid, rejection) == Failed(m)
    ensures m.state !in {ContractState.closed, ContractState.announced}
            ==> GrantSpec(m, cfg, grants, now) == Failed(m)
    ensures m.state !in {ContractState.granted, ContractState.cancelled} ==> CancelSpec(m, reason) == Failed(m)
    ensures Failed(m).state == ContractState.wtf && !Failed(m).registered
    ensures Failed(m).contractors == m.contractors && Failed(m).outbox == m.outbox
  {
  }
}
