/**
  The manager side of the contract-net protocol: AgencyManager of
  src/feat/agencies/contracts.py.

  The medium's state is the `Manager` value below; every operation of the
  class is specified by a pure function from the old value to the new one,
  and the protocol's properties are lemmas about those functions.

  The environment is explicit: the clock is a parameter `now`, messages the
  medium sends are appended to `outbox`, calls into the business manager are
  appended to `calls`, and `registered` says whether the agency still routes
  messages to the medium.
*/
module ContractManager {
  import opened Wrappers
  import opened ContractTypes

  /** The callback a manager timer runs when it fires. */
  datatype ManagerAction =
    | InitiateTimeout  // set by initiate(): initiate() never sent the announcement
    | AnnounceWindow   // set by announce(): _on_announce_expire
    | CloseWindow      // set by _close_announce_period(): the business expired()
    | GrantWindow      // set by grant(): _on_grant_expire

  /** A call the medium makes into the business manager. */
  datatype ManagerCall =
    | InitiateCall
    | BidCall(bid: Message)
    | ClosedCall
    | ExpiredCall
    | CancelledCall(cancellation: Message)
    | CompletedCall(reports: seq<Option<Message>>)
    | AbortedCall

  /** What the medium fixes when it is built: the expected number of bids and the
      business manager's three timeouts. */
  datatype Config = Config(
    expectedBids: Option<nat>,
    initiateTimeout: int,
    announceTimeout: int,
    grantTimeout: int)

  /** The observable state of a manager medium. */
  datatype Manager = Manager(
    state: ContractState,
    contractors: seq<Record>,
    expiration: Option<Timer<ManagerAction>>,
    outbox: seq<Sent>,
    calls: seq<ManagerCall>,
    registered: bool)

  // ---------------------------------------------------------------------------
  // Specification functions

  /** _count_expected_bids: unknown (None) as soon as one recipient is a broadcast,
      otherwise the number of recipients. */
  function ExpectedBids(recipients: seq<Recipient>): Option<nat> {
    if exists i :: 0 <= i < |recipients| && recipients[i].rtype == Broadcast then None
    else Some(|recipients|)
  }

  /** `self.expected_bids and len(self.contractors) >= self.expected_bids`. */
  predicate ShouldClose(expected: Option<nat>, recorded: nat) {
    expected.Some? && expected.value != 0 && recorded >= expected.value
  }

  /** _terminate: the expiration call is cancelled and the agency forgets the medium. */
  function Unregistered(m: Manager): Manager {
    m.(expiration := None, registered := false)
  }

  /** A failed _ensure_state: the medium goes to its error state and terminates. */
  function Failed(m: Manager): Manager {
    Unregistered(m.(state := ContractState.wtf))
  }

  /** What __init__ followed by initiate() leaves. */
  function InitiateSpec(cfg: Config, now: int): Manager {
    Manager(ContractState.initiated, [],
            Some(Timer(Some(now + cfg.initiateTimeout), Some(ContractState.wtf), InitiateTimeout)),
            [], [InitiateCall], true)
  }

  /** The announcement as sent: a fresh traversal id if it had none, and the deadline. */
  function Stamped(ann: Message, freshId: string, exp: int): Message {
    ann.(traversalId := if ann.traversalId.None? then Some(freshId) else ann.traversalId,
         expiration := Some(exp))
  }

  function AnnounceSpec(m: Manager, cfg: Config, ann: Message, freshId: string, now: int): Manager {
    if m.state != ContractState.initiated then Failed(m)
    else
      var exp := now + cfg.announceTimeout;
      m.(state := ContractState.announced,
         outbox := m.outbox + [Sent(Recipients, Stamped(ann, freshId, exp))],
         expiration := Some(Timer(Some(exp), None, AnnounceWindow)))
  }

  function RejectSpec(m: Manager, bid: Message, rejection: Option<Message>): Manager
    requires m.state in {ContractState.announced, ContractState.granted, ContractState.closed}
             ==> Known(m.contractors, bid)
  {
    if m.state !in {ContractState.announced, ContractState.granted, ContractState.closed} then Failed(m)
    else
      var i := Lookup(m.contractors, bid).value;
      var msg := if rejection.Some? then rejection.value else NewMessage(Rejection);
      var step := OnEvent(m.contractors[i], msg);
      m.(contractors := m.contractors[i := step.0], outbox := m.outbox + step.1)
  }

  /** The deadline grant() puts on the contract and on every Grant it sends. */
  function GrantDeadline(cfg: Config, now: int): int {
    now + cfg.grantTimeout
  }

  function GrantSpec(m: Manager, cfg: Config, grants: seq<(Message, Message)>, now: int): Manager
    requires m.state in {ContractState.closed, ContractState.announced}
             ==> forall j :: 0 <= j < |grants| ==> Known(m.contractors, grants[j].0)
  {
    if m.state !in {ContractState.closed, ContractState.announced} then Failed(m)
    else
      var exp := GrantDeadline(cfg, now);
      var g := GrantAll(m.contractors, grants, exp);
      var r := DeliverAll(g.0, {ContractorState.bid}, NewMessage(Rejection));
      m.(state := ContractState.granted,
         expiration := Some(Timer(Some(exp), Some(ContractState.aborted), GrantWindow)),
         contractors := r.0,
         outbox := m.outbox + g.1 + r.1)
  }

  /** The AttributeError `by_message` raises for a bid without a reply-to address. */
  datatype LookupError = NoReplyTo

  /** elect(): the bid's record becomes `elected`; an unknown bid is ignored, and a bid
      without a reply-to address raises before anything changes. */
  function ElectSpec(m: Manager, bid: Message): Manager {
    match Lookup(m.contractors, bid)
    case None => m
    case Some(i) => m.(contractors := m.contractors[i := m.contractors[i].(state := ContractorState.elected)])
  }

  /** `message.Cancellation(reason=reason)`. */
  function CancelMsg(reason: string): Message {
    NewMessage(Cancellation).(payload := reason)
  }

  /** cancel() needs at least one record to build its cancellation from. */
  predicate CanCancel(rs: seq<Record>) {
    |WithState(rs, {ContractorState.granted, ContractorState.completed})| > 0
  }

  function CancelSpec(m: Manager, reason: string): Manager
    requires m.state in {ContractState.granted, ContractState.cancelled} ==> CanCancel(m.contractors)
  {
    if m.state !in {ContractState.granted, ContractState.cancelled} then Failed(m)
    else
      var d := DeliverAll(m.contractors, {ContractorState.granted, ContractorState.completed}, CancelMsg(reason));
      Unregistered(m.(state := ContractState.cancelled,
                      contractors := d.0,
                      outbox := m.outbox + d.1,
                      calls := m.calls + [CancelledCall(CancelMsg(reason))]))
  }

  /** The states in which terminate() leaves the state alone. */
  predicate Finished(s: ContractState) {
    s in {ContractState.expired, ContractState.cancelled, ContractState.aborted, ContractState.wtf}
  }

  function TerminateSpec(m: Manager): Manager {
    var d := DeliverAll(m.contractors, {ContractorState.bid}, NewMessage(Rejection));
    var m1 := m.(contractors := d.0, outbox := m.outbox + d.1);
    if Finished(m.state) then m1 else Unregistered(m1.(state := ContractState.terminated))
  }

  function CloseAnnouncePeriodSpec(m: Manager): Manager
    requires |WithState(m.contractors, {ContractorState.bid})| > 0
  {
    m.(expiration := Some(Timer(GetExpirationTime(m.contractors), Some(ContractState.expired), CloseWindow)),
       state := ContractState.closed,
       calls := m.calls + [ClosedCall])
  }

  function GotoClosedOrExpiredSpec(m: Manager): Manager {
    if |WithState(m.contractors, {ContractorState.bid})| > 0 then CloseAnnouncePeriodSpec(m)
    else Unregistered(m.(state := ContractState.expired, calls := m.calls + [ExpiredCall]))
  }

  function CheckCloseSpec(m: Manager, cfg: Config): Manager {
    if ShouldClose(cfg.expectedBids, |m.contractors|) then GotoClosedOrExpiredSpec(m.(expiration := None))
    else m
  }

  /** A new record for the sender of `msg`, as the ManagerContractor constructor adds it. */
  function NewRecord(msg: Message, s: ContractorState): Record
    requires msg.replyTo.Some?
  {
    Record(msg.replyTo.value, msg, s, None)
  }

  function OnBidSpec(m: Manager, cfg: Config, msg: Message): Manager
    requires msg.replyTo.Some?
  {
    if Known(m.contractors, msg) then m
    else CheckCloseSpec(m.(contractors := m.contractors + [NewRecord(msg, ContractorState.bid)],
                           calls := m.calls + [BidCall(msg)]), cfg)
  }

  function OnRefusalSpec(m: Manager, cfg: Config, msg: Message): Manager
    requires msg.replyTo.Some?
  {
    if Known(m.contractors, msg) then m
    else CheckCloseSpec(m.(contractors := m.contractors + [NewRecord(msg, ContractorState.refused)]), cfg)
  }

  function OnDuplicateSpec(m: Manager, cfg: Config, msg: Message): Manager
    requires msg.replyTo.Some?
  {
    if Known(m.contractors, msg) then m else OnRefusalSpec(m, cfg, msg)
  }

  function OnCompleteSpec(m: Manager): Manager {
    if m.state != ContractState.granted then Failed(m)
    else
      var done := WithState(m.contractors, {ContractorState.completed});
      var d := DeliverAll(m.contractors, {ContractorState.completed}, NewMessage(Acknowledgement));
      Unregistered(m.(state := ContractState.completed,
                      contractors := d.0,
                      outbox := m.outbox + d.1,
                      calls := m.calls + [CompletedCall(ReportsOf(done))]))
  }

  /** The records after the report of the record at `i`. */
  function Reported(rs: seq<Record>, i: nat, msg: Message): seq<Record>
    requires i < |rs|
  {
    rs[i := OnEvent(rs[i], msg).0]
  }

  function OnReportSpec(m: Manager, msg: Message): Manager {
    match Lookup(m.contractors, msg)
    case None => m
    case Some(i) =>
      var m1 := m.(contractors := Reported(m.contractors, i, msg));
      if |WithState(m1.contractors, {ContractorState.granted})| == 0 then OnCompleteSpec(m1) else m1
  }

  /** The reason _on_cancel passes on to cancel(). */
  function OtherCancelled(reason: string): string {
    "Other contractor cancelled the job with reason: " + reason
  }

  /** What _on_cancel needs: a known sender and something to cancel. */
  predicate CancelHandled(rs: seq<Record>, msg: Message) {
    Known(rs, msg) && CanCancel(rs)
  }

  function OnCancelSpec(m: Manager, msg: Message): Manager
    requires CancelHandled(m.contractors, msg)
  {
    CancelSpec(m, OtherCancelled(msg.payload))
  }

  /** What on_message may be given: the transport stamps every message with its sender. */
  predicate Deliverable(m: Manager, msg: Message) {
    && msg.replyTo.Some?
    && (msg.kind == Cancellation && m.state == ContractState.granted ==> CancelHandled(m.contractors, msg))
  }

  /** on_message: the table of (kind, state before, state after, handler); any other
      message, or one in another state, is dropped. */
  function OnMessageSpec(m: Manager, cfg: Config, msg: Message): Manager
    requires Deliverable(m, msg)
  {
    match msg.kind
    case Bid => if m.state == ContractState.announced then OnBidSpec(m, cfg, msg) else m
    case Refusal => if m.state == ContractState.announced then OnRefusalSpec(m, cfg, msg) else m
    case Duplicate => if m.state == ContractState.announced then OnDuplicateSpec(m, cfg, msg) else m
    case FinalReport => if m.state == ContractState.granted then OnReportSpec(m, msg) else m
    case Cancellation =>
      if m.state == ContractState.granted then OnCancelSpec(m.(state := ContractState.cancelled), msg) else m
    case _ => m
  }

  function OnAnnounceExpireSpec(m: Manager): Manager {
    if m.state != ContractState.announced then Failed(m)
    else GotoClosedOrExpiredSpec(m.(expiration := None))
  }

  /** The pending timer is due at `now`. */
  predicate Due(t: Option<Timer<ManagerAction>>, now: int) {
    t.Some? && t.value.at.Some? && t.value.at.value <= now
  }

  /** The expiration call fires: its slot is cleared, its target state (if any) is set, its
      callback runs, and a call with a target state terminates the medium afterwards. */
  function ExpireSpec(m: Manager): Manager
    requires m.expiration.Some?
  {
    var t := m.expiration.value;
    var m1 := m.(expiration := None);
    var m2 := if t.target.Some? then m1.(state := t.target.value) else m1;
    var m3 :=
      match t.action
      case InitiateTimeout => m2
      case AnnounceWindow => OnAnnounceExpireSpec(m2)
      case CloseWindow => m2.(calls := m2.calls + [ExpiredCall])
      case GrantWindow => m2.(state := ContractState.aborted, calls := m2.calls + [AbortedCall]);
    if t.target.Some? then Unregistered(m3) else m3
  }

  /** grant() from an accepting state, written out with its two loops. */
  lemma GrantSpecGranted(m: Manager, cfg: Config, grants: seq<(Message, Message)>, now: int)
    requires m.state in {ContractState.closed, ContractState.announced}
    requires forall j :: 0 <= j < |grants| ==> Known(m.contractors, grants[j].0)
    ensures var g := GrantAll(m.contractors, grants, GrantDeadline(cfg, now));
            var r := DeliverAll(g.0, {ContractorState.bid}, NewMessage(Rejection));
            GrantSpec(m, cfg, grants, now)
            == Manager(ContractState.granted, r.0,
                       Some(Timer(Some(GrantDeadline(cfg, now)), Some(ContractState.aborted), GrantWindow)),
                       m.outbox + g.1 + r.1, m.calls, m.registered)
  {
  }

  // ---------------------------------------------------------------------------
  // The medium's invariant

  /** The states after which the medium is no longer registered with the agency. */
  predicate Terminal(s: ContractState) {
    s in {ContractState.expired, ContractState.completed, ContractState.cancelled,
          ContractState.aborted, ContractState.wtf, ContractState.terminated}
  }

  /** Each kind of expiration call is set in one state, with one target state. */
  predicate TimerFits(t: Timer<ManagerAction>, s: ContractState) {
    match t.action
    case InitiateTimeout => t.target == Some(ContractState.wtf) && s == ContractState.initiated
    case AnnounceWindow => t.target == None && s == ContractState.announced
    case CloseWindow => t.target == Some(ContractState.expired) && s == ContractState.closed
    case GrantWindow => t.target == Some(ContractState.aborted) && s == ContractState.granted
  }

  /** One record per contractor; registered exactly until a terminal state; the pending
      expiration call is the one the current state set. */
  predicate Inv(m: Manager) {
    && DistinctKeys(m.contractors)
    && (m.registered <==> !Terminal(m.state))
    && (m.expiration.Some? ==> TimerFits(m.expiration.value, m.state))
  }

  lemma InitiateEstablishesInv(cfg: Config, now: int)
    ensures Inv(InitiateSpec(cfg, now))
  {
  }

  lemma AnnounceKeepsInv(m: Manager, cfg: Config, ann: Message, freshId: string, now: int)
    requires Inv(m)
    ensures Inv(AnnounceSpec(m, cfg, ann, freshId, now))
  {
  }

  lemma RejectKeepsInv(m: Manager, bid: Message, rejection: Option<Message>)
    requires Inv(m)
    requires m.state in {ContractState.announced, ContractState.granted, ContractState.closed}
             ==> Known(m.contractors, bid)
    ensures Inv(RejectSpec(m, bid, rejection))
  {
    if m.state in {ContractState.announced, ContractState.granted, ContractState.closed} {
      var i := Lookup(m.contractors, bid).value;
      var msg := if rejection.Some? then rejection.value else NewMessage(Rejection);
      OnEventEdges(m.contractors[i], msg);
      UpdateKeepsKeys(m.contractors, i, OnEvent(m.contractors[i], msg).0);
    }
  }

  lemma GrantKeepsInv(m: Manager, cfg: Config, grants: seq<(Message, Message)>, now: int)
    requires Inv(m)
    requires m.state in {ContractState.closed, ContractState.announced}
             ==> forall j :: 0 <= j < |grants| ==> Known(m.contractors, grants[j].0)
    ensures Inv(GrantSpec(m, cfg, grants, now))
  {
    if m.state in {ContractState.closed, ContractState.announced} {
      var g := GrantAll(m.contractors, grants, GrantDeadline(cfg, now));
      DeliverAllKeys(g.0, {ContractorState.bid}, NewMessage(Rejection));
      SameKeysDistinct(m.contractors, g.0);
      SameKeysDistinct(g.0, GrantSpec(m, cfg, grants, now).contractors);
    }
  }

  lemma ElectKeepsInv(m: Manager, bid: Message)
    requires Inv(m)
    ensures Inv(ElectSpec(m, bid))
  {
    match Lookup(m.contractors, bid)
    case None =>
    case Some(i) => UpdateKeepsKeys(m.contractors, i, m.contractors[i].(state := ContractorState.elected));
  }

  lemma CancelKeepsInv(m: Manager, reason: string)
    requires Inv(m)
    requires m.state in {ContractState.granted, ContractState.cancelled} ==> CanCancel(m.contractors)
    ensures Inv(CancelSpec(m, reason))
  {
    DeliverAllKeys(m.contractors, {ContractorState.granted, ContractorState.completed}, CancelMsg(reason));
  }

  lemma TerminateKeepsInv(m: Manager)
    requires Inv(m)
    ensures Inv(TerminateSpec(m))
  {
    DeliverAllKeys(m.contractors, {ContractorState.bid}, NewMessage(Rejection));
  }

  /** A bid, refusal or duplicate from a new contractor adds its record, and the close
      check that follows keeps the invariant. */
  lemma RecordKeepsInv(m: Manager, cfg: Config, msg: Message, s: ContractorState)
    requires Inv(m) && m.state == ContractState.announced && msg.replyTo.Some?
    requires !Known(m.contractors, msg)
    ensures Inv(CheckCloseSpec(m.(contractors := m.contractors + [NewRecord(msg, s)]), cfg))
    ensures Inv(CheckCloseSpec(m.(contractors := m.contractors + [NewRecord(msg, s)],
                                  calls := m.calls + [BidCall(msg)]), cfg))
  {
  }

  lemma OnReportKeepsInv(m: Manager, msg: Message)
    requires Inv(m) && m.state == ContractState.granted
    ensures Inv(OnReportSpec(m, msg))
  {
    match Lookup(m.contractors, msg)
    case None =>
    case Some(i) =>
      var rs := Reported(m.contractors, i, msg);
      OnEventEdges(m.contractors[i], msg);
      UpdateKeepsKeys(m.contractors, i, OnEvent(m.contractors[i], msg).0);
      DeliverAllKeys(rs, {ContractorState.completed}, NewMessage(Acknowledgement));
  }

  lemma OnMessageKeepsInv(m: Manager, cfg: Config, msg: Message)
    requires Inv(m) && Deliverable(m, msg)
    ensures Inv(OnMessageSpec(m, cfg, msg))
  {
    match msg.kind
    case Bid =>
      if m.state == ContractState.announced && !Known(m.contractors, msg) {
        RecordKeepsInv(m, cfg, msg, ContractorState.bid);
      }
    case Refusal =>
      if m.state == ContractState.announced && !Known(m.contractors, msg) {
        RecordKeepsInv(m, cfg, msg, ContractorState.refused);
      }
    case Duplicate =>
      if m.state == ContractState.announced && !Known(m.contractors, msg) {
        RecordKeepsInv(m, cfg, msg, ContractorState.refused);
      }
    case FinalReport =>
      if m.state == ContractState.granted {
        OnReportKeepsInv(m, msg);
      }
    case Cancellation =>
      if m.state == ContractState.granted {
        DeliverAllKeys(m.contractors, {ContractorState.granted, ContractorState.completed},
                       CancelMsg(OtherCancelled(msg.payload)));
      }
    case _ =>
  }

  lemma ExpireKeepsInv(m: Manager)
    requires Inv(m) && m.expiration.Some?
    ensures Inv(ExpireSpec(m))
  {
  }

  // ---------------------------------------------------------------------------
  // The medium

  /** _count_expected_bids. */
  method CountExpectedBids(recipients: seq<Recipient>) returns (expected: Option<nat>)
    ensures expected.None? <==> exists i :: 0 <= i < |recipients| && recipients[i].rtype == Broadcast
    ensures expected.Some? ==> expected.value == |recipients|
    ensures expected == ExpectedBids(recipients)
  {
    var count := 0;
    var i := 0;
    while i < |recipients|
      invariant 0 <= i <= |recipients| && count == i
      invariant forall k :: 0 <= k < i ==> recipients[k].rtype != Broadcast
    {
      if recipients[i].rtype == Broadcast {
        return None;
      }
      count := count + 1;
      i := i + 1;
    }
    return Some(count);
  }

  /** The loops `for contractor in with_state(*states): contractor.on_event(msg)`, over the
      records in order: the updated records and the messages the records sent. */
  method DeliverEach(rs: seq<Record>, states: set<ContractorState>, msg: Message)
    returns (out: seq<Record>, sent: seq<Sent>)
    ensures out == DeliverAll(rs, states, msg).0 && sent == DeliverAll(rs, states, msg).1
  {
    out := rs;
    sent := [];
    var i := 0;
    while i < |out|
      invariant 0 <= i <= |out| == |rs|
      invariant out == DeliverAll(rs[..i], states, msg).0 + rs[i..]
      invariant sent == DeliverAll(rs[..i], states, msg).1
    {
      DeliverAllStep(rs, states, msg, i);
      var step := Step(out[i], states, msg);
      out := out[i := step.0];
      sent := sent + step.1;
      i := i + 1;
    }
    assert rs[..i] == rs;
    assert out == DeliverAll(rs, states, msg).0 + [];
  }

  /** The loop of grant() over (bid, grant) pairs: each bid's record takes its grant,
      stamped with the grant's expiration time. */
  method GrantEach(rs: seq<Record>, grants: seq<(Message, Message)>, exp: int)
    returns (out: seq<Record>, sent: seq<Sent>)
    requires forall j :: 0 <= j < |grants| ==> Known(rs, grants[j].0)
    ensures out == GrantAll(rs, grants, exp).0 && sent == GrantAll(rs, grants, exp).1
  {
    out := rs;
    sent := [];
    var j := 0;
    while j < |grants|
      invariant 0 <= j <= |grants|
      invariant out == GrantAll(rs, grants[..j], exp).0
      invariant sent == GrantAll(rs, grants[..j], exp).1
    {
      assert grants[..j + 1][..j] == grants[..j];
      var (bid, grant) := grants[j];
      var g := grant.(expiration := Some(exp));
      assert Known(rs, bid);
      assert Lookup(out, bid) == Lookup(rs, bid);
      var i := Lookup(out, bid).value;
      var step := OnEvent(out[i], g);
      out := out[i := step.0];
      sent := sent + step.1;
      j := j + 1;
    }
    assert grants[..j] == grants;
  }

  class AgencyManager {
    const recipients: seq<Recipient>
    const cfg: Config
    var state: ContractState
    var contractors: seq<Record>
    var expiration: Option<Timer<ManagerAction>>
    var outbox: seq<Sent>
    var calls: seq<ManagerCall>
    var registered: bool

    function Model(): Manager
      reads this
    {
      Manager(state, contractors, expiration, outbox, calls, registered)
    }

    ghost predicate Valid()
      reads this
    {
      Inv(Model()) && cfg.expectedBids == ExpectedBids(recipients)
    }

    /** __init__ followed by initiate(). */
    constructor (recipients: seq<Recipient>, initiateTimeout: int, announceTimeout: int,
                 grantTimeout: int, now: int)
      ensures Valid() && this.recipients == recipients
      ensures cfg == Config(ExpectedBids(recipients), initiateTimeout, announceTimeout, grantTimeout)
      ensures Model() == InitiateSpec(cfg, now)
    {
      var expected := CountExpectedBids(recipients);
      this.recipients := recipients;
      cfg := Config(expected, initiateTimeout, announceTimeout, grantTimeout);
      state := ContractState.initiated;
      contractors := [];
      expiration := Some(Timer(Some(now + initiateTimeout), Some(ContractState.wtf), InitiateTimeout));
      outbox := [];
      calls := [InitiateCall];
      registered := true;
    }

    /** _terminate. */
    method Unregister()
      modifies this
      ensures Model() == Unregistered(old(Model()))
    {
      expiration := None;
      registered := false;
    }

    method EnsureState(allowed: set<ContractState>) returns (ok: bool)
      modifies this
      ensures ok == (old(state) in allowed)
      ensures Model() == if ok then old(Model()) else Failed(old(Model()))
    {
      ok := state in allowed;
      if !ok {
        state := ContractState.wtf;
        Unregister();
      }
    }

    /** The loops `for contractor in with_state(*states): contractor.on_event(msg)`. */
    /** Delivery to the records in `states`, in order. */
    method DeliverToAll(states: set<ContractorState>, msg: Message)
      modifies this
      ensures contractors == DeliverAll(old(contractors), states, msg).0
      ensures outbox == old(outbox) + DeliverAll(old(contractors), states, msg).1
      ensures state == old(state) && expiration == old(expiration)
      ensures calls == old(calls) && registered == old(registered)
    {
      var out, sent := DeliverEach(contractors, states, msg);
      contractors := out;
      outbox := outbox + sent;
    }

    method Announce(ann: Message, freshId: string, now: int) returns (sent: Option<Message>)
      requires Valid() && ann.kind == Announcement
      modifies this
      ensures Valid()
      ensures Model() == AnnounceSpec(old(Model()), cfg, ann, freshId, now)
      ensures sent == if old(state) == ContractState.initiated
                      then Some(Stamped(ann, freshId, now + cfg.announceTimeout)) else None
    {
      AnnounceKeepsInv(Model(), cfg, ann, freshId, now);
      var a := ann;
      if a.traversalId.None? {
        a := a.(traversalId := Some(freshId));
      }
      var ok := EnsureState({ContractState.initiated});
      if !ok {
        return None;
      }
      state := ContractState.announced;
      var exp := now + cfg.announceTimeout;
      a := a.(expiration := Some(exp));
      outbox := outbox + [Sent(Recipients, a)];
      expiration := None;
      expiration := Some(Timer(Some(exp), None, AnnounceWindow));
      return Some(a);
    }

    method Reject(bid: Message, rejection: Option<Message>)
      requires Valid()
      requires state in {ContractState.announced, ContractState.granted, ContractState.closed}
               ==> Known(contractors, bid)
      modifies this
      ensures Valid()
      ensures Model() == RejectSpec(old(Model()), bid, rejection)
    {
      RejectKeepsInv(Model(), bid, rejection);
      var ok := EnsureState({ContractState.announced, ContractState.granted, ContractState.closed});
      if !ok {
        return;
      }
      var i := Lookup(contractors, bid).value;
      var msg := if rejection.Some? then rejection.value else NewMessage(Rejection);
      var step := OnEvent(contractors[i], msg);
      contractors := contractors[i := step.0];
      outbox := outbox + step.1;
    }

    /** The first loop of grant(). */
    method Grant(grants: seq<(Message, Message)>, now: int)
      requires Valid()
      requires state in {ContractState.closed, ContractState.announced}
               ==> forall j :: 0 <= j < |grants| ==> Known(contractors, grants[j].0)
      modifies this
      ensures Valid()
      ensures Model() == GrantSpec(old(Model()), cfg, grants, now)
    {
      GrantKeepsInv(Model(), cfg, grants, now);
      var ok := EnsureState({ContractState.closed, ContractState.announced});
      if !ok {
        return;
      }
      GrantAccepted(grants, now);
    }

    /** grant() once _ensure_state has let it through. */
    method GrantAccepted(grants: seq<(Message, Message)>, now: int)
      requires state in {ContractState.closed, ContractState.announced}
      requires forall j :: 0 <= j < |grants| ==> Known(contractors, grants[j].0)
      modifies this
      ensures Model() == GrantSpec(old(Model()), cfg, grants, now)
    {
      GrantSpecGranted(Model(), cfg, grants, now);
      var exp := now + cfg.grantTimeout;
      var granted, grantsSent := GrantEach(contractors, grants, exp);
      var rejected, rejectionsSent := DeliverEach(granted, {ContractorState.bid}, NewMessage(Rejection));
      state := ContractState.granted;
      expiration := Some(Timer(Some(exp), Some(ContractState.aborted), GrantWindow));
      contractors := rejected;
      outbox := outbox + grantsSent + rejectionsSent;
    }

    method Elect(bid: Message) returns (r: Result<(), LookupError>)
      requires Valid()
      modifies this
      ensures Valid()
      ensures r.Err? <==> bid.replyTo.None?
      ensures Model() == ElectSpec(old(Model()), bid)
    {
      ElectKeepsInv(Model(), bid);
      if bid.replyTo.None? {
        return Err(NoReplyTo);
      }
      var found := Lookup(contractors, bid);
      if found.None? {
        return Ok(());
      }
      var i := found.value;
      contractors := contractors[i := contractors[i].(state := ContractorState.elected)];
      return Ok(());
    }

    method Cancel(reason: string)
      requires Valid()
      requires state in {ContractState.granted, ContractState.cancelled} ==> CanCancel(contractors)
      modifies this
      ensures Valid()
      ensures Model() == CancelSpec(old(Model()), reason)
    {
      CancelKeepsInv(Model(), reason);
      DoCancel(reason);
    }

    method DoCancel(reason: string)
      requires state in {ContractState.granted, ContractState.cancelled} ==> CanCancel(contractors)
      modifies this
      ensures Model() == CancelSpec(old(Model()), reason)
    {
      var ok := EnsureState({ContractState.granted, ContractState.cancelled});
      if !ok {
        return;
      }
      state := ContractState.cancelled;
      DeliverToAll({ContractorState.granted, ContractorState.completed}, CancelMsg(reason));
      calls := calls + [CancelledCall(CancelMsg(reason))];
      Unregister();
    }

    method Terminate()
      requires Valid()
      modifies this
      ensures Valid()
      ensures Model() == TerminateSpec(old(Model()))
    {
      TerminateKeepsInv(Model());
      DeliverToAll({ContractorState.bid}, NewMessage(Rejection));
      if !Finished(state) {
        state := ContractState.terminated;
        expiration := None;
        Unregister();
      }
    }

    /** get_bids: the Bid messages of the records still in `bid`, one per record, in the
        order of the records. */
    function GetBids(): (bids: seq<Message>)
      reads this
      ensures bids == BidsOf(WithState(contractors, {ContractorState.bid}))
      ensures |bids| == |WithState(contractors, {ContractorState.bid})|
      ensures forall b :: b in bids <==>
        exists r :: r in contractors && r.state == ContractorState.bid && r.bid == b
    {
      var w := WithState(contractors, {ContractorState.bid});
      var bs := BidsOf(w);
      assert forall b :: b in bs ==> exists r :: r in w && r.bid == b;
      assert forall r :: r in w ==> r.bid in bs;
      bs
    }

    method CloseAnnouncePeriod()
      requires |WithState(contractors, {ContractorState.bid})| > 0
      modifies this
      ensures Model() == CloseAnnouncePeriodSpec(old(Model()))
    {
      expiration := Some(Timer(GetExpirationTime(contractors), Some(ContractState.expired), CloseWindow));
      state := ContractState.closed;
      calls := calls + [ClosedCall];
    }

    method GotoClosedOrExpired()
      modifies this
      ensures Model() == GotoClosedOrExpiredSpec(old(Model()))
    {
      if |WithState(contractors, {ContractorState.bid})| > 0 {
        CloseAnnouncePeriod();
      } else {
        state := ContractState.expired;
        calls := calls + [ExpiredCall];
        Unregister();
      }
    }

    method CheckIfShouldGotoClose()
      modifies this
      ensures Model() == CheckCloseSpec(old(Model()), cfg)
    {
      if ShouldClose(cfg.expectedBids, |contractors|) {
        expiration := None;
        GotoClosedOrExpired();
      }
    }

    /** The ManagerContractor constructor: a record for the sender, unless it has one. */
    method AddRecord(msg: Message, s: ContractorState) returns (ok: bool)
      requires msg.replyTo.Some?
      modifies this
      ensures ok == !Known(old(contractors), msg)
      ensures Model() == if ok then old(Model()).(contractors := old(contractors) + [NewRecord(msg, s)])
                         else old(Model())
    {
      if Known(contractors, msg) {
        return false;
      }
      contractors := contractors + [NewRecord(msg, s)];
      return true;
    }

    method OnBid(msg: Message)
      requires msg.replyTo.Some?
      modifies this
      ensures Model() == OnBidSpec(old(Model()), cfg, msg)
    {
      var ok := AddRecord(msg, ContractorState.bid);
      if !ok {
        return;
      }
      calls := calls + [BidCall(msg)];
      CheckIfShouldGotoClose();
    }

    method OnRefusal(msg: Message)
      requires msg.replyTo.Some?
      modifies this
      ensures Model() == OnRefusalSpec(old(Model()), cfg, msg)
    {
      var ok := AddRecord(msg, ContractorState.refused);
      if !ok {
        return;
      }
      CheckIfShouldGotoClose();
    }

    method OnDuplicate(msg: Message)
      requires msg.replyTo.Some?
      modifies this
      ensures Model() == OnDuplicateSpec(old(Model()), cfg, msg)
    {
      if Known(contractors, msg) {
        return;
      }
      OnRefusal(msg);
    }

    method OnComplete()
      modifies this
      ensures Model() == OnCompleteSpec(old(Model()))
    {
      var ok := EnsureState({ContractState.granted});
      if !ok {
        return;
      }
      state := ContractState.completed;
      expiration := None;
      var done := WithState(contractors, {ContractorState.completed});
      DeliverToAll({ContractorState.completed}, NewMessage(Acknowledgement));
      calls := calls + [CompletedCall(ReportsOf(done))];
      Unregister();
    }

    method OnReport(msg: Message)
      modifies this
      ensures Model() == OnReportSpec(old(Model()), msg)
    {
      var found := Lookup(contractors, msg);
      if found.None? {
        return;
      }
      contractors := Reported(contractors, found.value, msg);
      if |WithState(contractors, {ContractorState.granted})| == 0 {
        OnComplete();
      }
    }

    method OnCancel(msg: Message)
      requires CancelHandled(contractors, msg)
      modifies this
      ensures Model() == OnCancelSpec(old(Model()), msg)
    {
      DoCancel(OtherCancelled(msg.payload));
    }

    /** on_message. */
    method OnMessage(msg: Message)
      requires Valid() && Deliverable(Model(), msg)
      modifies this
      ensures Valid()
      ensures Model() == OnMessageSpec(old(Model()), cfg, msg)
    {
      OnMessageKeepsInv(Model(), cfg, msg);
      Dispatch(msg);
    }

    /** The message's handler, when its state is the one the table names. */
    method Dispatch(msg: Message)
      requires Deliverable(Model(), msg)
      modifies this
      ensures Model() == OnMessageSpec(old(Model()), cfg, msg)
    {
      match msg.kind
      case Bid =>
        if state == ContractState.announced { OnBid(msg); }
      case Refusal =>
        if state == ContractState.announced { OnRefusal(msg); }
      case Duplicate =>
        if state == ContractState.announced { OnDuplicate(msg); }
      case FinalReport =>
        if state == ContractState.granted { OnReport(msg); }
      case Cancellation =>
        if state == ContractState.granted {
          state := ContractState.cancelled;
          OnCancel(msg);
        }
      case _ =>
    }

    method OnAnnounceExpire()
      modifies this
      ensures Model() == OnAnnounceExpireSpec(old(Model()))
    {
      var ok := EnsureState({ContractState.announced});
      if !ok {
        return;
      }
      expiration := None;
      GotoClosedOrExpired();
    }

    /** The pending expiration call fires at `now`. */
    method Expire(now: int)
      requires Valid() && Due(expiration, now)
      modifies this
      ensures Valid()
      ensures Model() == ExpireSpec(old(Model()))
    {
      ExpireKeepsInv(Model());
      var t := expiration.value;
      expiration := None;
      if t.target.Some? {
        state := t.target.value;
      }
      match t.action {
        case InitiateTimeout =>
        case AnnounceWindow =>
          OnAnnounceExpire();
        case CloseWindow =>
          calls := calls + [ExpiredCall];
        case GrantWindow =>
          state := ContractState.aborted;
          calls := calls + [AbortedCall];
      }
      if t.target.Some? {
        Unregister();
      }
    }
  }
}
