/** Properties of the contractor side of the protocol, stated on the specification
    functions of ContractContractor. */
module ContractorProperties {
  import opened Wrappers
  import opened ContractTypes
  import opened ContractContractor

  /** The contractor's transition table written out edge by edge, independently of `Rows`. */
  predicate TableEdge(k: MessageKind, s: ContractState, t: ContractState) {
    || (k == Announcement && s == ContractState.initiated && t == ContractState.announced)
    || (k == Rejection && s == ContractState.bid && t == ContractState.rejected)
    || (k == Grant && s == ContractState.bid && t == ContractState.granted)
    || (k == Cancellation && s == ContractState.granted && t == ContractState.cancelled)
    || (k == Cancellation && s == ContractState.completed && t == ContractState.aborted)
    || (k == Acknowledgement && s == ContractState.completed && t == ContractState.acknowledged)
  }

  /** on_message changes the state exactly along an edge of the table, and a message with
      no edge from the current state leaves the medium untouched. */
  lemma OnMessageTransitions(c: Contractor, msg: Message)
    requires Deliverable(msg)
    ensures var c' := OnMessageSpec(c, msg);
      && (c'.state != c.state <==> TableEdge(msg.kind, c.state, c'.state))
      && (c'.state == c.state ==> c' == c)
      && ((exists t :: TableEdge(msg.kind, c.state, t)) <==> c'.state != c.state)
  {
    var c' := OnMessageSpec(c, msg);
    if exists t :: TableEdge(msg.kind, c.state, t) {
      var t :| TableEdge(msg.kind, c.state, t);
      assert Match(msg.kind, c.state).Some?;
    }
  }

  /** A medium that has terminated ignores every message. */
  lemma TerminatedIgnoresMessages(c: Contractor, msg: Message)
    requires Inv(c) && !c.registered && Deliverable(msg)
    ensures OnMessageSpec(c, msg) == c
  {
  }

  /** An Announcement to a fresh medium: it is announced, calls announced() and will close
      at the announcement's expiration time. */
  lemma AnnounceOutcome(manager: Key, ann: Message)
    requires ann.kind == Announcement && Deliverable(ann)
    ensures var c := OnMessageSpec(InitiateSpec(manager), ann);
      && c.state == ContractState.announced && c.registered
      && c.expiration == Some(Timer(ann.expiration, Some(ContractState.closed), AnnounceExpiry))
      && c.calls == [InitiateCall, AnnouncedCall(ann)]
      && c.outbox == []
  {
  }

  /** bid() while announced: the bid goes to the manager stamped with `now + bid_timeout`,
      is kept as the medium's own bid, and the same instant becomes the deadline after
      which the medium expires. */
  lemma BidOutcome(c: Contractor, bidTimeout: int, bid: Message, now: int)
    requires c.state == ContractState.announced
    ensures var c' := BidSpec(c, bidTimeout, bid, now);
      && c'.state == ContractState.bid && c'.registered == c.registered
      && c'.outbox == c.outbox + [Sent(To(c.manager), bid.(expiration := Some(now + bidTimeout)))]
      && c'.ownBid == Some(bid.(expiration := Some(now + bidTimeout)))
      && c'.expiration.Some? && c'.expiration.value.at == Some(now + bidTimeout)
      && c'.expiration.value.target == Some(ContractState.expired)
  {
  }

  /** A Grant while in `bid`: the medium is granted, keeps the grant, takes the grant's
      sender as its manager, calls granted() and will expire at the grant's expiration
      time; nothing is sent. */
  lemma GrantOutcome(c: Contractor, grant: Message)
    requires c.state == ContractState.bid && grant.kind == Grant && Deliverable(grant)
    ensures var c' := OnMessageSpec(c, grant);
      && c'.state == ContractState.granted && c'.registered == c.registered
      && c'.grant == Some(grant)
      && c'.manager == grant.replyTo.value
      && c'.expiration == Some(Timer(grant.expiration, Some(ContractState.expired), GrantExpiry))
      && c'.calls == c.calls + [GrantedCall(grant)]
      && c'.outbox == c.outbox
  {
  }

  /** A Grant in any state other than `bid` (for instance one that arrives while the medium
      is still `announced`) is dropped. */
  lemma GrantOnlyAfterBid(c: Contractor, grant: Message)
    requires c.state != ContractState.bid && grant.kind == Grant && Deliverable(grant)
    ensures OnMessageSpec(c, grant) == c
  {
  }

  /** A Cancellation ends a granted contract as `cancelled` (calling cancelled() with it)
      and a completed one as `aborted` (calling aborted()); both terminate the medium. */
  lemma CancellationOutcome(c: Contractor, msg: Message)
    requires msg.kind == Cancellation && Deliverable(msg)
    requires c.state in {ContractState.granted, ContractState.completed}
    ensures var c' := OnMessageSpec(c, msg);
      && !c'.registered && c'.expiration == None && c'.outbox == c.outbox
      && (c.state == ContractState.granted ==>
            c'.state == ContractState.cancelled && c'.calls == c.calls + [CancelledCall(msg)])
      && (c.state == ContractState.completed ==>
            c'.state == ContractState.aborted && c'.calls == c.calls + [AbortedCall])
  {
  }

  /** A Rejection while in `bid` and an Acknowledgement while `completed` end the medium,
      handing the message to rejected() and acknowledged() respectively. */
  lemma AnswerOutcome(c: Contractor, msg: Message)
    requires Deliverable(msg)
    requires (msg.kind == Rejection && c.state == ContractState.bid)
          || (msg.kind == Acknowledgement && c.state == ContractState.completed)
    ensures var c' := OnMessageSpec(c, msg);
      && !c'.registered && c'.expiration == None && c'.outbox == c.outbox
      && (msg.kind == Rejection ==>
            c'.state == ContractState.rejected && c'.calls == c.calls + [RejectedCall(msg)])
      && (msg.kind == Acknowledgement ==>
            c'.state == ContractState.acknowledged && c'.calls == c.calls + [AcknowledgedCall(msg)])
  {
  }

  /** refuse(), handover() and defect() are the operations that end the medium at once:
      from the state each requires, it passes its message to the manager and terminates.
      A refusal or a cancellation reaches the manager stamped with the contractor's own
      address `contractorKey`; the handed-over bid reaches it with the nested contractor's reply-to
      address, and the medium keeps it as its `bid`. */
  lemma EndingOperationsOutcome(c: Contractor, msg: Message, contractorKey: Key)
    ensures var c' := RefuseSpec(c, msg);
      c.state == ContractState.announced ==>
        && c'.state == ContractState.refused && !c'.registered
        && c'.outbox == c.outbox + [Sent(To(c.manager), msg)]
        && Delivered(c'.outbox[|c.outbox|], contractorKey).replyTo == Some(contractorKey)
    ensures var c' := HandoverSpec(c, msg);
      c.state == ContractState.announced ==>
        && c'.state == ContractState.delegated && !c'.registered
        && c'.outbox == c.outbox + [HandedOver(To(c.manager), msg)]
        && c'.handedOver == Some(msg)
        && Delivered(c'.outbox[|c.outbox|], contractorKey) == msg
    ensures var c' := DefectSpec(c, msg);
      c.state == ContractState.granted ==>
        && c'.state == ContractState.defected && !c'.registered
        && c'.outbox == c.outbox + [Sent(To(c.manager), msg)]
        && Delivered(c'.outbox[|c.outbox|], contractorKey).replyTo == Some(contractorKey)
  {
  }

  /** Calling an operation in a state that does not allow it (refuse() once granted, for
      instance) puts the medium in `wtf`, cancels its timer, unregisters it and sends
      nothing. */
  lemma WrongStateFails(c: Contractor, bidTimeout: int, msg: Message, now: int)
    ensures c.state != ContractState.announced ==>
      && BidSpec(c, bidTimeout, msg, now) == Failed(c)
      && RefuseSpec(c, msg) == Failed(c)
      && HandoverSpec(c, msg) == Failed(c)
    ensures c.state != ContractState.granted ==>
      && DefectSpec(c, msg) == Failed(c)
      && FinalizeSpec(c, bidTimeout, msg, now) == Failed(c)
    ensures var f := Failed(c);
      f.state == ContractState.wtf && !f.registered && f.expiration == None && f.outbox == c.outbox
  {
  }

  /** finalize() while granted: the report goes to the manager stamped with
      `now + bid_timeout`, the contract is completed, and the medium is aborted if no
      acknowledgement arrives by then. */
  lemma FinalizeOutcome(c: Contractor, bidTimeout: int, report: Message, now: int)
    requires c.state == ContractState.granted
    ensures var c' := FinalizeSpec(c, bidTimeout, report, now);
      && c'.state == ContractState.completed && c'.registered == c.registered
      && c'.report == Some(report.(expiration := Some(now + bidTimeout)))
      && c'.outbox == c.outbox + [Sent(To(c.manager), report.(expiration := Some(now + bidTimeout)))]
      && c'.expiration == Some(Timer(Some(now + bidTimeout), Some(ContractState.aborted), ReportExpiry))
  {
  }

  /** update_manager_address: afterwards the manager is `recp`; nothing else changes, and
      the value changes only when the address differs. */
  lemma UpdateManagerAddressOutcome(c: Contractor, recp: Key)
    ensures var c' := UpdateManagerAddressSpec(c, recp);
      && c'.manager == recp
      && c' == c.(manager := recp)
      && (c' == c <==> recp == c.manager)
  {
  }

  /** Every expiration call of a well-formed medium ends it: announced goes to `closed`
      calling announce_expired(), bid to `expired` calling bid_expired(), granted to
      `expired` calling cancelled() with the grant, completed to `aborted` calling
      aborted(). */
  lemma ExpireOutcome(c: Contractor)
    requires Inv(c) && c.expiration.Some?
    ensures var c' := ExpireSpec(c);
      && !c'.registered && c'.expiration == None && c'.outbox == c.outbox
      && (c.state == ContractState.announced ==>
            c'.state == ContractState.closed && c'.calls == c.calls + [AnnounceExpiredCall])
      && (c.state == ContractState.bid ==>
            c'.state == ContractState.expired && c'.calls == c.calls + [BidExpiredCall])
      && (c.state == ContractState.granted ==>
            c'.state == ContractState.expired && c'.calls == c.calls + [CancelledCall(c.grant.value)])
      && (c.state == ContractState.completed ==>
            c'.state == ContractState.aborted && c'.calls == c.calls + [AbortedCall])
  {
  }

  /** The whole happy path of a contractor: announced, bid, granted, finalized and
      acknowledged; the manager sees the bid and then the report, and the business
      contractor sees every step in order. */
  lemma HappyPath(manager: Key, bidTimeout: int, ann: Message, bid: Message, grant: Message,
                  report: Message, ack: Message, t0: int, t1: int)
    requires ann.kind == Announcement && grant.kind == Grant && ack.kind == Acknowledgement
    requires Deliverable(ann) && Deliverable(grant) && Deliverable(ack)
    ensures var c1 := OnMessageSpec(InitiateSpec(manager), ann);
      var c2 := BidSpec(c1, bidTimeout, bid, t0);
      var c3 := OnMessageSpec(c2, grant);
      var c4 := FinalizeSpec(c3, bidTimeout, report, t1);
      var c5 := OnMessageSpec(c4, ack);
      && c5.state == ContractState.acknowledged && !c5.registered
      && c5.outbox == [Sent(To(manager), bid.(expiration := Some(t0 + bidTimeout))),
                       Sent(To(grant.replyTo.value), report.(expiration := Some(t1 + bidTimeout)))]
      && c5.calls == [InitiateCall, AnnouncedCall(ann), GrantedCall(grant), AcknowledgedCall(ack)]
  {
    var c1 := OnMessageSpec(InitiateSpec(manager), ann);
    AnnounceOutcome(manager, ann);
    var c2 := BidSpec(c1, bidTimeout, bid, t0);
    BidOutcome(c1, bidTimeout, bid, t0);
    var c3 := OnMessageSpec(c2, grant);
    GrantOutcome(c2, grant);
    var c4 := FinalizeSpec(c3, bidTimeout, report, t1);
    FinalizeOutcome(c3, bidTimeout, report, t1);
    AnswerOutcome(c4, ack);
  }
}
