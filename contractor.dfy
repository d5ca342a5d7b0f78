/**
  The contractor side of the contract-net protocol: AgencyContractor of
  src/feat/agencies/contracts.py.

  As on the manager side, the medium's state is the `Contractor` value below,
  every method is specified by a pure function of the old value, and the
  properties are lemmas about those functions. The clock is a parameter `now`,
  messages sent to the manager are appended to `outbox`, and calls into the
  business contractor are appended to `calls`.
*/
module ContractContractor {
  import opened Wrappers
  import opened ContractTypes

  /** The callback a contractor timer runs when it fires. */
  datatype ContractorAction =
    | AnnounceExpiry  // set by _on_announce: announce_expired()
    | BidExpiry       // set by bid(): bid_expired()
    | GrantExpiry     // set by _on_grant: cancelled(grant)
    | ReportExpiry    // set by finalize(): aborted()

  /** A call the medium makes into the business contractor. */
  datatype ContractorCall =
    | InitiateCall
    | AnnouncedCall(announcement: Message)
    | AnnounceExpiredCall
    | BidExpiredCall
    | GrantedCall(grant: Message)
    | RejectedCall(rejection: Message)
    | CancelledCall(cancellation: Message)
    | AbortedCall
    | AcknowledgedCall(ack: Message)

  /** The observable state of a contractor medium. `manager` is `self.recipients`, the
      address its messages go to. */
  datatype Contractor = Contractor(
    state: ContractState,
    manager: Key,
    expiration: Option<Timer<ContractorAction>>,
    outbox: seq<Sent>,
    calls: seq<ContractorCall>,
    registered: bool,
    ownBid: Option<Message>,
    handedOver: Option<Message>,
    grant: Option<Message>,
    report: Option<Message>)

  // ---------------------------------------------------------------------------
  // Specification functions

  function Unregistered(c: Contractor): Contractor {
    c.(expiration := None, registered := false)
  }

  function Failed(c: Contractor): Contractor {
    Unregistered(c.(state := ContractState.wtf))
  }

  /** What __init__ followed by initiate() leaves, for an announcement from `manager`. */
  function InitiateSpec(manager: Key): Contractor {
    Contractor(ContractState.initiated, manager, None, [], [InitiateCall], true, None, None, None, None)
  }

  /** _send_message: the message goes to the manager. */
  function SendToManager(c: Contractor, msg: Message): Contractor {
    c.(outbox := c.outbox + [Sent(To(c.manager), msg)])
  }

  function BidSpec(c: Contractor, bidTimeout: int, bid: Message, now: int): Contractor {
    if c.state != ContractState.announced then Failed(c)
    else
      var exp := now + bidTimeout;
      var sent := bid.(expiration := Some(exp));
      SendToManager(c, sent).(state := ContractState.bid, ownBid := Some(sent),
                              expiration := Some(Timer(Some(exp), Some(ContractState.expired), BidExpiry)))
  }

  /** handover(): the nested contractor's bid is passed on to the manager with
      `_handover_message`, which keeps the bid's own reply-to address, and is kept as the
      medium's `bid`. */
  function HandoverSpec(c: Contractor, bid: Message): Contractor {
    if c.state != ContractState.announced then Failed(c)
    else Unregistered(c.(state := ContractState.delegated,
                         outbox := c.outbox + [HandedOver(To(c.manager), bid)],
                         handedOver := Some(bid)))
  }

  function RefuseSpec(c: Contractor, refusal: Message): Contractor {
    if c.state != ContractState.announced then Failed(c)
    else Unregistered(SendToManager(c, refusal).(state := ContractState.refused))
  }

  function DefectSpec(c: Contractor, cancellation: Message): Contractor {
    if c.state != ContractState.granted then Failed(c)
    else Unregistered(SendToManager(c, cancellation).(state := ContractState.defected))
  }

  function FinalizeSpec(c: Contractor, bidTimeout: int, report: Message, now: int): Contractor {
    if c.state != ContractState.granted then Failed(c)
    else
      var exp := now + bidTimeout;
      var sent := report.(expiration := Some(exp));
      SendToManager(c, sent).(state := ContractState.completed, report := Some(sent),
                              expiration := Some(Timer(Some(exp), Some(ContractState.aborted), ReportExpiry)))
  }

  function UpdateManagerAddressSpec(c: Contractor, recp: Key): Contractor {
    if recp != c.manager then c.(manager := recp) else c
  }

  /** One row of the contractor's message table: the state it accepts and the state after. */
  datatype Row = Row(before: ContractState, after: ContractState)

  /** The rows of on_message for a kind of message; Cancellation has two. */
  function Rows(kind: MessageKind): seq<Row> {
    match kind
    case Announcement => [Row(ContractState.initiated, ContractState.announced)]
    case Rejection => [Row(ContractState.bid, ContractState.rejected)]
    case Grant => [Row(ContractState.bid, ContractState.granted)]
    case Cancellation => [Row(ContractState.granted, ContractState.cancelled),
                          Row(ContractState.completed, ContractState.aborted)]
    case Acknowledgement => [Row(ContractState.completed, ContractState.acknowledged)]
    case _ => []
  }

  /** The row of the table that accepts `msg` in state `s`, if any. */
  function Match(kind: MessageKind, s: ContractState): (r: Option<Row>)
    ensures r.Some? ==> r.value in Rows(kind) && r.value.before == s
    ensures r.None? ==> forall row :: row in Rows(kind) ==> row.before != s
  {
    var rows := Rows(kind);
    if |rows| > 0 && rows[0].before == s then Some(rows[0])
    else if |rows| > 1 && rows[1].before == s then Some(rows[1])
    else None
  }

  /** The handler of each row, run after the state is set to the row's `after`. */
  function Handle(c: Contractor, msg: Message): Contractor
    requires Deliverable(msg)
  {
    match c.state
    case announced =>
      c.(expiration := Some(Timer(msg.expiration, Some(ContractState.closed), AnnounceExpiry)),
         calls := c.calls + [AnnouncedCall(msg)])
    case rejected => Unregistered(c.(calls := c.calls + [RejectedCall(msg)]))
    case granted =>
      var c1 := c.(expiration := Some(Timer(msg.expiration, Some(ContractState.expired), GrantExpiry)),
                   grant := Some(msg));
      UpdateManagerAddressSpec(c1, msg.replyTo.value).(calls := c.calls + [GrantedCall(msg)])
    case cancelled => Unregistered(c.(calls := c.calls + [CancelledCall(msg)]))
    case aborted => Unregistered(c.(calls := c.calls + [AbortedCall]))
    case acknowledged => Unregistered(c.(calls := c.calls + [AcknowledgedCall(msg)]))
    case _ => c
  }

  /** What on_message may be given: the transport stamps every message with its sender. */
  predicate Deliverable(msg: Message) {
    msg.replyTo.Some?
  }

  /** on_message: a message with a row for the current state sets the row's state and runs
      its handler; any other message is dropped. */
  function OnMessageSpec(c: Contractor, msg: Message): Contractor
    requires Deliverable(msg)
  {
    match Match(msg.kind, c.state)
    case None => c
    case Some(row) => Handle(c.(state := row.after), msg)
  }

  predicate Due(t: Option<Timer<ContractorAction>>, now: int) {
    t.Some? && t.value.at.Some? && t.value.at.value <= now
  }

  /** The expiration call fires: its target state is set, its callback runs, and the
      medium terminates. */
  function ExpireSpec(c: Contractor): Contractor
    requires c.expiration.Some?
  {
    var t := c.expiration.value;
    var c1 := c.(expiration := None);
    var c2 := if t.target.Some? then c1.(state := t.target.value) else c1;
    var call :=
      match t.action
      case AnnounceExpiry => AnnounceExpiredCall
      case BidExpiry => BidExpiredCall
      case GrantExpiry => CancelledCall(if c.grant.Some? then c.grant.value else NewMessage(Grant))
      case ReportExpiry => AbortedCall;
    var c3 := c2.(calls := c2.calls + [call]);
    if t.target.Some? then Unregistered(c3) else c3
  }

  // ---------------------------------------------------------------------------
  // The medium's invariant

  predicate Terminal(s: ContractState) {
    s in {ContractState.closed, ContractState.expired, ContractState.rejected, ContractState.refused,
          ContractState.delegated, ContractState.defected, ContractState.cancelled,
          ContractState.aborted, ContractState.acknowledged, ContractState.wtf}
  }

  /** Each kind of expiration call is set in one state, with one target state. */
  predicate TimerFits(t: Timer<ContractorAction>, s: ContractState) {
    match t.action
    case AnnounceExpiry => t.target == Some(ContractState.closed) && s == ContractState.announced
    case BidExpiry => t.target == Some(ContractState.expired) && s == ContractState.bid
    case GrantExpiry => t.target == Some(ContractState.expired) && s == ContractState.granted
    case ReportExpiry => t.target == Some(ContractState.aborted) && s == ContractState.completed
  }

  /** Registered exactly until a terminal state; the pending expiration call is the one the
      current state set; a granted contract keeps its grant. */
  predicate Inv(c: Contractor) {
    && (c.registered <==> !Terminal(c.state))
    && (c.expiration.Some? ==> TimerFits(c.expiration.value, c.state))
    && (c.state in {ContractState.granted, ContractState.completed} ==> c.grant.Some?)
  }

  lemma InitiateEstablishesInv(manager: Key)
    ensures Inv(InitiateSpec(manager))
  {
  }

  lemma BidKeepsInv(c: Contractor, bidTimeout: int, bid: Message, now: int)
    requires Inv(c)
    ensures Inv(BidSpec(c, bidTimeout, bid, now))
  {
  }

  lemma FinalizeKeepsInv(c: Contractor, bidTimeout: int, report: Message, now: int)
    requires Inv(c)
    ensures Inv(FinalizeSpec(c, bidTimeout, report, now))
  {
  }

  lemma EndingOperationsKeepInv(c: Contractor, msg: Message)
    requires Inv(c)
    ensures Inv(HandoverSpec(c, msg)) && Inv(RefuseSpec(c, msg)) && Inv(DefectSpec(c, msg))
  {
  }

  lemma UpdateManagerAddressKeepsInv(c: Contractor, recp: Key)
    requires Inv(c)
    ensures Inv(UpdateManagerAddressSpec(c, recp))
  {
  }

  lemma OnMessageKeepsInv(c: Contractor, msg: Message)
    requires Inv(c) && Deliverable(msg)
    ensures Inv(OnMessageSpec(c, msg))
  {
  }

  lemma ExpireKeepsInv(c: Contractor)
    requires Inv(c) && c.expiration.Some?
    ensures Inv(ExpireSpec(c))
  {
  }

  // ---------------------------------------------------------------------------
  // The medium

  class AgencyContractor {
    /** The business contractor's bid timeout. */
    const bidTimeout: int
    var state: ContractState
    var manager: Key
    var expiration: Option<Timer<ContractorAction>>
    var outbox: seq<Sent>
    var calls: seq<ContractorCall>
    var registered: bool
    var ownBid: Option<Message>
    /** `self.bid`: the bid handover() passed on. */
    var handedOver: Option<Message>
    var grant: Option<Message>
    var report: Option<Message>

    function Model(): Contractor
      reads this
    {
      Contractor(state, manager, expiration, outbox, calls, registered, ownBid, handedOver, grant, report)
    }

    ghost predicate Valid()
      reads this
    {
      Inv(Model())
    }

    /** __init__ for an announcement from `announcement.reply_to`, then initiate(). */
    constructor (announcement: Message, bidTimeout: int)
      requires announcement.kind == Announcement && Deliverable(announcement)
      ensures Valid() && this.bidTimeout == bidTimeout
      ensures Model() == InitiateSpec(announcement.replyTo.value)
    {
      this.bidTimeout := bidTimeout;
      state := ContractState.initiated;
      manager := announcement.replyTo.value;
      expiration := None;
      outbox := [];
      calls := [InitiateCall];
      registered := true;
      ownBid := None;
      handedOver := None;
      grant := None;
      report := None;
    }

    /** _terminate. */
    method Unregister()
      modifies this
      ensures Model() == Unregistered(old(Model()))
    {
      expiration := None;
      registered := false;
    }

    method EnsureState(s: ContractState) returns (ok: bool)
      modifies this
      ensures ok == (old(state) == s)
      ensures Model() == if ok then old(Model()) else Failed(old(Model()))
    {
      ok := state == s;
      if !ok {
        state := ContractState.wtf;
        Unregister();
      }
    }

    method Send(msg: Message)
      modifies this
      ensures Model() == SendToManager(old(Model()), msg)
    {
      outbox := outbox + [Sent(To(manager), msg)];
    }

    method Bid(bid: Message, now: int) returns (sent: Option<Message>)
      requires Valid() && bid.kind == MessageKind.Bid
      modifies this
      ensures Valid()
      ensures Model() == BidSpec(old(Model()), bidTimeout, bid, now)
      ensures sent == if old(state) == ContractState.announced then ownBid else None
    {
      BidKeepsInv(Model(), bidTimeout, bid, now);
      var ok := EnsureState(ContractState.announced);
      if !ok {
        return None;
      }
      var exp := now + bidTimeout;
      var b := bid.(expiration := Some(exp));
      state := ContractState.bid;
      outbox := outbox + [Sent(To(manager), b)];
      ownBid := Some(b);
      expiration := Some(Timer(Some(exp), Some(ContractState.expired), BidExpiry));
      return ownBid;
    }

    method Handover(bid: Message) returns (sent: Option<Message>)
      requires Valid() && bid.kind == MessageKind.Bid
      modifies this
      ensures Valid()
      ensures Model() == HandoverSpec(old(Model()), bid)
      ensures sent == if old(state) == ContractState.announced then handedOver else None
    {
      EndingOperationsKeepInv(Model(), bid);
      var ok := EnsureState(ContractState.announced);
      if !ok {
        return None;
      }
      state := ContractState.delegated;
      outbox := outbox + [HandedOver(To(manager), bid)];
      handedOver := Some(bid);
      Unregister();
      return handedOver;
    }

    method Refuse(refusal: Message) returns (sent: Option<Message>)
      requires Valid() && refusal.kind == Refusal
      modifies this
      ensures Valid()
      ensures Model() == RefuseSpec(old(Model()), refusal)
      ensures sent == if old(state) == ContractState.announced then Some(refusal) else None
    {
      EndingOperationsKeepInv(Model(), refusal);
      var ok := EnsureState(ContractState.announced);
      if !ok {
        return None;
      }
      state := ContractState.refused;
      Send(refusal);
      Unregister();
      return Some(refusal);
    }

    method Defect(cancellation: Message) returns (sent: Option<Message>)
      requires Valid() && cancellation.kind == Cancellation
      modifies this
      ensures Valid()
      ensures Model() == DefectSpec(old(Model()), cancellation)
      ensures sent == if old(state) == ContractState.granted then Some(cancellation) else None
    {
      EndingOperationsKeepInv(Model(), cancellation);
      var ok := EnsureState(ContractState.granted);
      if !ok {
        return None;
      }
      state := ContractState.defected;
      Send(cancellation);
      Unregister();
      return Some(cancellation);
    }

    method Finalize(report: Message, now: int) returns (sent: Option<Message>)
      requires Valid() && report.kind == FinalReport
      modifies this
      ensures Valid()
      ensures Model() == FinalizeSpec(old(Model()), bidTimeout, report, now)
      ensures sent == if old(state) == ContractState.granted then this.report else None
    {
      FinalizeKeepsInv(Model(), bidTimeout, report, now);
      var ok := EnsureState(ContractState.granted);
      if !ok {
        return None;
      }
      var exp := now + bidTimeout;
      var r := report.(expiration := Some(exp));
      state := ContractState.completed;
      outbox := outbox + [Sent(To(manager), r)];
      this.report := Some(r);
      expiration := Some(Timer(Some(exp), Some(ContractState.aborted), ReportExpiry));
      return this.report;
    }

    method UpdateManagerAddress(recp: Key)
      requires Valid()
      modifies this
      ensures Valid()
      ensures Model() == UpdateManagerAddressSpec(old(Model()), recp)
    {
      if recp != manager {
        manager := recp;
      }
    }

    /** on_message. */
    method OnMessage(msg: Message)
      requires Valid() && Deliverable(msg)
      modifies this
      ensures Valid()
      ensures Model() == OnMessageSpec(old(Model()), msg)
    {
      OnMessageKeepsInv(Model(), msg);
      Dispatch(msg);
    }

    /** The message's handler, when the table has a row for it in the current state. */
    method Dispatch(msg: Message)
      requires Deliverable(msg)
      modifies this
      ensures Model() == OnMessageSpec(old(Model()), msg)
    {
      var row := Match(msg.kind, state);
      if row.None? {
        return;
      }
      state := row.value.after;
      match state {
        case announced =>
          expiration := Some(Timer(msg.expiration, Some(ContractState.closed), AnnounceExpiry));
          calls := calls + [AnnouncedCall(msg)];
        case rejected =>
          calls := calls + [RejectedCall(msg)];
          Unregister();
        case granted =>
          expiration := None;
          expiration := Some(Timer(msg.expiration, Some(ContractState.expired), GrantExpiry));
          grant := Some(msg);
          if msg.replyTo.value != manager {
            manager := msg.replyTo.value;
          }
          calls := calls + [GrantedCall(msg)];
        case cancelled =>
          calls := calls + [CancelledCall(msg)];
          Unregister();
        case aborted =>
          calls := calls + [AbortedCall];
          Unregister();
        case acknowledged =>
          calls := calls + [AcknowledgedCall(msg)];
          Unregister();
        case _ =>
      }
    }

    /** The pending expiration call fires at `now`. */
    method Expire(now: int)
      requires Valid() && Due(expiration, now)
      modifies this
      ensures Valid()
      ensures Model() == ExpireSpec(old(Model()))
    {
      ExpireKeepsInv(Model());
      var t := expiration.value;
      expiration := None;
      if t.target.Some? {
        state := t.target.value;
      }
      var call :=
        match t.action
        case AnnounceExpiry => AnnounceExpiredCall
        case BidExpiry => BidExpiredCall
        case GrantExpiry => CancelledCall(if grant.Some? then grant.value else NewMessage(Grant))
        case ReportExpiry => AbortedCall;
      calls := calls + [call];
      if t.target.Some? {
        Unregister();
      }
    }
  }
}
