# feat: the contract-net negotiation core, and its companions, in Dafny

This project models the core of `feat`, an agent framework that runs on Twisted. It also proves properties of that model.

The main part is the contract-net protocol of `src/feat/agencies/contracts.py`:

- **Manager side:** an `AgencyManager` announces a contract to its recipients. It collects one record per contractor, holding that contractor's bid or refusal. The announce window closes either early, at the expected number of answers, or on timeout. The manager then grants, rejects or elects bids, completes once every granted contractor has reported, and can cancel or terminate.
- **Contractor side:** an `AgencyContractor` answers the announcement. It can bid, refuse, hand over or defect, and it finalizes with a report. It reacts to the manager's Grant, Rejection, Cancellation and Acknowledgement.

Each side's medium has three parts:

- a state;
- a single active expiration call, which gives the deadline, the state it sets when it fires, and the callback it runs;
- logs of what the medium sent and which business-handler callbacks it ran.

Each medium is a Dafny `class` whose fields are those of the source. Each of its methods is proved to move its `Model()` exactly as a pure specification function says, and to keep the medium's invariant. The properties of the protocol are lemmas about those functions:

- what every operation does, from the state it requires;
- the `wtf` failure from any other state;
- the record table's transition edges;
- early close at the expected bid count;
- grant, reject, terminate, report and cancellation outcomes.

The module `Negotiation` puts the two sides together. A Grant sent by the manager gives the contractor the manager's own deadline. The deadline set when a recorded bid closes the window is no earlier than that bid's own expiry. A handed-over bid is recorded under the nested contractor's address.

The smaller cores:

- **Journal replay** (`src/feat/agencies/replay.py`):
  - the side-effect description `side_effect_as_string`;
  - the replay entry's side-effect cursor, with its argument and keyword checks and the unconsumed check of `apply`;
  - the driver's recorder and dummy registries;
  - `Factory.restore`;
  - `check_snapshot`.
- **Formatable records** (`src/feat/common/formatable.py`): field declaration, and construction with the truthy-or-default rule. Also `snapshot` and `recover`, with their round trip.
- **Agent alerts** (`src/feat/agents/base/alert.py`): the per-service raise counter and `_generate_alert`. Both kinds of alert factory are modelled: an alert class keeps the values it is given, and a `DynamicAlert` builds a formatable record in which a false value becomes None.
- **The tunnelling channel** (`src/feat/agencies/tunneling.py`): the reply-to rule of `post`.
- **The emulated agency** (`src/feat/agencies/emu/agency.py`): shard membership and listener registration.

Modelling choices:

- **Clock.** It is an integer parameter (`now`).
- **Sent messages.** They are an appended log of (target, message) entries. An entry records which transport call made it. `_send_message` stamps the message with the sender's own address when it is delivered; `_handover_message` delivers the message with its own reply-to address (`ContractTypes.Delivered`).
- **Business callbacks.** They are an appended log of calls.
- **`repr()`.** It is a function parameter `Value -> string`.
- **Python values.** They are the `PyValues.Value` datatype, which expresses Python truthiness, `or` and `str`.
- **Python assertion failures and exceptions.** These are modelled in five ways:
  - as `Err` results of a `Result` datatype: the alert, replay, emulated-agency and tunnelling operations that assert or raise, and `elect()` of a bid without a reply-to address;
  - for the contract mediums, a failed `_ensure_state` moves to the `wtf` state, as the source's mixin does;
  - the manager's `RuntimeError` when a record is created twice aborts that handler and leaves the medium as it was;
  - as preconditions: the branches where the source itself crashes with a `NameError` or `AttributeError` (listed under "## Left out");
  - as preconditions: the `assert isinstance(...)` checks of a message's class in the contract mediums (listed under "## Left out").

## Model

| member | source | states |
|---|---|---|
| `ContractTypes.OnEventEdges` | src/feat/agencies/contracts.py:93-116 | A record takes exactly the five message rows of its table. Rejection and Grant apply only from `bid`, Cancellation from `granted` or `completed`, Acknowledgement from `completed` and FinalReport from `granted`. The FinalReport is stored as the record's report; every other row sends the message on to the contractor. A message with no row, or arriving in a state its row does not accept, changes nothing and sends nothing. The record's key and bid never change. |
| `ContractTypes.Lookup` | src/feat/agencies/contracts.py:124-126 | `by_message` finds a record exactly when one carries the sender's key, and the record found has that key. |
| `ContractTypes.LookupUnique` | src/feat/agencies/contracts.py:72-75 | With one record per key, the record of a sender is the one `by_message` returns. |
| `ContractTypes.WithState` | src/feat/agencies/contracts.py:121-122 | `with_state` holds exactly the records whose state is one of those asked for. |
| `ContractTypes.WithStateEmpty` | src/feat/agencies/contracts.py:121-122 | `with_state` is empty exactly when no record is in any of those states. |
| `ContractTypes.DeliverAllAt` | src/feat/agencies/contracts.py:248-249 | The loop delivering a message to the records in some states gives each such record its event and leaves every other record untouched. |
| `ContractTypes.DeliverAllSent` | src/feat/agencies/contracts.py:266-270 | Such a loop, for a message the table sends on, sends one copy to every chosen record and nothing else. |
| `ContractTypes.DeliverAllKeys` | src/feat/agencies/contracts.py:72-75 | Delivery keeps every record's key, so the table stays one record per contractor. |
| `ContractTypes.GrantAllStates` | src/feat/agencies/contracts.py:242-245 | The grant loop moves records from `bid` to `granted` only. Every entry it sends is the Grant of one of the pairs, stamped with the deadline and addressed to the sender of that pair's bid. |
| `ContractTypes.GrantAllAt` | src/feat/agencies/contracts.py:242-245 | The grant loop grants exactly the records its pairs name: a named record in `bid` ends `granted`, and a record that no pair names is left unchanged. |
| `ContractTypes.GrantAllSendsFirst` | src/feat/agencies/contracts.py:242-245 | When a pair is the first to name a record in `bid`, that record's sender is sent the pair's Grant, stamped with the deadline. |
| `ContractTypes.GrantAllSendsLast` | src/feat/agencies/contracts.py:242-245 | When the last pair names a record in `bid` that no earlier pair names, that record's sender is sent the pair's Grant. |
| `ContractTypes.GrantAllPrefix` | src/feat/agencies/contracts.py:242-245 | The loop sends in pair order: what the first `n` pairs send is a prefix of what all the pairs send. |
| `ContractTypes.MaxExpiration` | src/feat/agencies/contracts.py:131-133 | The maximum expiration time, under Python 2's ordering where None sorts lowest, is no earlier than that of any record and is one of them. |
| `ContractTypes.GetExpirationTime` | src/feat/agencies/contracts.py:131-133 | `get_expiration_time` is the latest expiration among the records in `bid`. |
| `ContractTypes.Delivered` | src/feat/agencies/contracts.py:542-554 | What the receiver of a log entry gets. A message sent with `_send_message` carries the sender's address as its reply-to. A bid passed on with `_handover_message` arrives exactly as handed over. Kind, expiration, traversal id and payload are kept either way. |
| `ContractManager.CountExpectedBids` | src/feat/agencies/contracts.py:460-472 | The expected bid count is None exactly when some recipient is a broadcast, even mixed with direct ones; otherwise it is the number of recipients. |
| `ContractManager.DeliverEach` | src/feat/agencies/contracts.py:248-249 | The loop `for contractor in with_state(...): contractor.on_event(msg)` computes exactly the specification of delivery, in record order. |
| `ContractManager.GrantEach` | src/feat/agencies/contracts.py:242-245 | The loop over (bid, grant) pairs stamps each Grant with the deadline and delivers it to its bid's record, exactly as specified. |
| `ContractManager.AgencyManager.constructor` | src/feat/agencies/contracts.py:147-185 | `__init__` then `initiate()`: state `initiated`, and the expected bid count from the recipients. An expiration call to `wtf` is armed at the initiate timeout. |
| `ContractManager.AgencyManager.Announce` | src/feat/agencies/contracts.py:190-207 | The medium follows the announce specification and keeps its invariant. It returns the stamped announcement when it was `initiated`. |
| `ContractManager.AgencyManager.Reject` | src/feat/agencies/contracts.py:210-220 | The medium follows the reject specification: the bid's record takes the given Rejection, or a new one. |
| `ContractManager.AgencyManager.Grant` | src/feat/agencies/contracts.py:224-249 | The medium follows the grant specification and keeps its invariant. |
| `ContractManager.AgencyManager.GrantAccepted` | src/feat/agencies/contracts.py:234-249 | After the state check, grant() gives exactly the specified granted medium. |
| `ContractManager.AgencyManager.Elect` | src/feat/agencies/contracts.py:253-258 | The medium follows the elect specification: a known bid's record becomes `elected`, and an unknown bid is ignored. A bid without a reply-to address raises in `by_message`: an error result, with the medium unchanged. |
| `ContractManager.AgencyManager.Cancel` | src/feat/agencies/contracts.py:261-272 | The medium follows the cancel specification and keeps its invariant. |
| `ContractManager.AgencyManager.Terminate` | src/feat/agencies/contracts.py:275-286 | The medium follows the terminate specification and keeps its invariant. |
| `ContractManager.AgencyManager.GetBids` | src/feat/agencies/contracts.py:289-291 | The bids returned are exactly the bid messages of the records in `bid`, one per such record and in record order. |
| `ContractManager.AgencyManager.OnMessage` | src/feat/agencies/contracts.py:309-334 | An inbound message is handled as its table row says, and the invariant is kept. |
| `ContractManager.AgencyManager.Expire` | src/feat/agencies/contracts.py:341-351 | The pending expiration call fires as specified, and the invariant is kept. |
| `ContractManager.AgencyManager.CloseAnnouncePeriod` | src/feat/agencies/contracts.py:439-444 | `_close_announce_period` gives the specified closed medium, with the latest bid deadline as its expiry. |
| `ContractManager.AgencyManager.CheckIfShouldGotoClose` | src/feat/agencies/contracts.py:427-430 | `_check_if_should_goto_close` follows its specification. |
| `ContractManager.AgencyManager.GotoClosedOrExpired` | src/feat/agencies/contracts.py:432-437 | `_goto_closed_or_expired` follows its specification: it closes the window when some record is in `bid`, and otherwise expires. |
| `ContractManager.AgencyManager.AddRecord` | src/feat/agencies/contracts.py:63-75 | The `ManagerContractor` constructor adds a record, keyed by the sender, exactly when the sender has none. A second record for the same key raises, and the medium is left unchanged. |
| `ContractManager.AgencyManager.OnBid` | src/feat/agencies/contracts.py:353-357 | `_on_bid` follows its specification: the bid is recorded in `bid`, bid() is called, and the close check runs. |
| `ContractManager.AgencyManager.OnRefusal` | src/feat/agencies/contracts.py:359-362 | `_on_refusal` follows its specification: the refusal is recorded in `refused`, and the close check runs. |
| `ContractManager.AgencyManager.OnDuplicate` | src/feat/agencies/contracts.py:364-370 | `_on_duplicate` follows its specification: it is ignored when the sender has a record, and handled as a refusal otherwise. |
| `ContractManager.AgencyManager.OnAnnounceExpire` | src/feat/agencies/contracts.py:345-351 | `_on_announce_expire` follows its specification: from `announced` it cancels the expiration call and closes or expires; any other state is a `wtf` failure. |
| `ContractManager.AgencyManager.OnReport` | src/feat/agencies/contracts.py:372-383 | `_on_report` follows its specification. |
| `ContractManager.AgencyManager.OnComplete` | src/feat/agencies/contracts.py:400-413 | `_on_complete` follows its specification. |
| `ContractManager.AgencyManager.OnCancel` | src/feat/agencies/contracts.py:385-398 | `_on_cancel` follows its specification. |
| `ContractManager.OnMessageKeepsInv` | src/feat/agencies/contracts.py:309-334 | Handling any deliverable message keeps the manager's invariant. The invariant has three parts: one record per key; registered exactly until a terminal state; the pending expiration call is the one the current state arms. |
| `ManagerProperties.KnownContractorAnswerIgnored` | src/feat/agencies/contracts.py:72-75 | A second Bid, Refusal or Duplicate from a contractor that already has a record leaves the manager unchanged. |
| `ManagerProperties.DuplicateFromNewContractorRefused` | src/feat/agencies/contracts.py:364-370 | A Duplicate from a contractor with no record adds one record, in `refused`, for it. |
| `ManagerProperties.EarlyClose` | src/feat/agencies/contracts.py:427-430 | The announce window closes early exactly when the number of records reaches the expected count, with bids and refusals counted alike. A None or 0 count never closes it early. |
| `ManagerProperties.CloseOutcome` | src/feat/agencies/contracts.py:432-444 | Closing goes to `closed` exactly when some record is in `bid`, with an expiration call at the latest bid deadline. Otherwise it goes to `expired`, calls expired() and unregisters. |
| `ManagerProperties.TimerOutcome` | src/feat/agencies/contracts.py:341-351 | The announce window's expiration call closes the window. Every other expiration call sets its state and terminates the medium. |
| `ManagerProperties.AnnounceOutcome` | src/feat/agencies/contracts.py:190-207 | From `initiated`, one announcement goes to the recipients with a traversal id and the announce deadline, and the window's expiration call is set. |
| `ManagerProperties.GrantRecords` | src/feat/agencies/contracts.py:242-249 | After grant(), a record in `bid` is `granted` when one of the (bid, grant) pairs names it and `rejected` otherwise. Records in any other state are untouched. |
| `ManagerProperties.GrantSent` | src/feat/agencies/contracts.py:242-249 | grant() sends the Grants, each carrying the new deadline, and then the Rejections. |
| `ManagerProperties.GrantRejectionSent` | src/feat/agencies/contracts.py:248-249 | Every record grant() rejects is sent a Rejection. |
| `ManagerProperties.GrantEntered` | src/feat/agencies/contracts.py:224-249 | grant() enters `granted`, arms the grant deadline with target `aborted`, and keeps the record count and the earlier outbox. Every Grant it sends carries that deadline. |
| `ManagerProperties.GrantPairSent` | src/feat/agencies/contracts.py:242-245 | For the first pair naming a record in `bid`, grant() sends that record's sender the pair's Grant, stamped with the deadline. |
| `ManagerProperties.GrantOutcome` | src/feat/agencies/contracts.py:224-249 | From `closed` or `announced`, grant() enters `granted` and arms the deadline. A `bid` record that a pair names is granted and sent the first such pair's Grant, stamped with that deadline. Every other `bid` record is rejected and sent a Rejection, records in other states are untouched, and no record remains in `bid`. |
| `ManagerProperties.ReportOutcome` | src/feat/agencies/contracts.py:372-383 | A FinalReport moves its record from `granted` to `completed`, keeping the report. The manager completes exactly when no record remains `granted`. |
| `ManagerProperties.CompleteOutcome` | src/feat/agencies/contracts.py:400-413 | On completion, an Acknowledgement goes to exactly the `completed` records, which become `acknowledged`. completed() receives their reports, and the medium unregisters. |
| `ManagerProperties.ReportFromUnknownIgnored` | src/feat/agencies/contracts.py:372-376 | A FinalReport from a contractor without a record changes nothing. |
| `ManagerProperties.TerminateOutcome` | src/feat/agencies/contracts.py:275-286 | terminate() rejects exactly the `bid` records. It enters `terminated` unless the medium is already `expired`, `cancelled`, `aborted` or `wtf`. |
| `ManagerProperties.ElectThenTerminate` | src/feat/agencies/contracts.py:253-258 | An elected record is left untouched by terminate(): it is neither rejected nor sent a Rejection. |
| `ManagerProperties.CancelOutcome` | src/feat/agencies/contracts.py:261-272 | cancel() cancels exactly the `granted` and `completed` records and sends them the Cancellation. cancelled() is called, and the medium unregisters. |
| `ManagerProperties.ContractorCancellation` | src/feat/agencies/contracts.py:385-398 | A contractor's Cancellation while `granted` cancels the whole contract with that contractor's reason. |
| `ManagerProperties.WrongStateFails` | src/feat/agencies/contracts.py:198-199 | Every state-checked operation called from another state leads to `wtf`: the medium unregisters, and no record or message changes. |
| `ContractContractor.Match` | src/feat/agencies/contracts.py:619-645 | The table has a row for a message kind in a state exactly when some row names both. The Cancellation rows for `granted` and `completed` are distinct. |
| `ContractContractor.AgencyContractor.constructor` | src/feat/agencies/contracts.py:486-521 | `__init__` then `initiate()`: state `initiated`, answering the announcement's sender, with initiate() called. |
| `ContractContractor.AgencyContractor.Bid` | src/feat/agencies/contracts.py:523-540 | The medium follows the bid specification and keeps its invariant. It returns the stamped bid when it was `announced`. |
| `ContractContractor.AgencyContractor.Handover` | src/feat/agencies/contracts.py:542-554 | The medium follows the handover specification: the bid is passed on with `_handover_message`, kept as the medium's `bid`, and returned. |
| `ContractContractor.AgencyContractor.Refuse` | src/feat/agencies/contracts.py:556-567 | The medium follows the refuse specification. |
| `ContractContractor.AgencyContractor.Defect` | src/feat/agencies/contracts.py:569-580 | The medium follows the defect specification. |
| `ContractContractor.AgencyContractor.Finalize` | src/feat/agencies/contracts.py:582-598 | The medium follows the finalize specification. |
| `ContractContractor.AgencyContractor.UpdateManagerAddress` | src/feat/agencies/contracts.py:600-605 | The medium follows the specification of update_manager_address. |
| `ContractContractor.AgencyContractor.OnMessage` | src/feat/agencies/contracts.py:619-647 | An inbound message is handled as the table says, and the invariant is kept. |
| `ContractContractor.AgencyContractor.Expire` | src/feat/agencies/contracts.py:674-694 | The pending expiration call fires as specified, and the invariant is kept. |
| `ContractContractor.OnMessageKeepsInv` | src/feat/agencies/contracts.py:619-647 | Every deliverable message keeps the contractor's invariant. The invariant has three parts: registered exactly until a terminal state; the expiration call matches the state; a granted or completed contract holds its grant. |
| `ContractorProperties.OnMessageTransitions` | src/feat/agencies/contracts.py:619-645 | on_message changes the state only along one of the seven table edges, with Cancellation going `granted`→`cancelled` and `completed`→`aborted`. A message without an edge leaves the medium unchanged. |
| `ContractorProperties.TerminatedIgnoresMessages` | src/feat/agencies/contracts.py:659-667 | A terminated contractor ignores every message. |
| `ContractorProperties.AnnounceOutcome` | src/feat/agencies/contracts.py:674-677 | An Announcement to a fresh medium moves it to `announced` and calls announced(). The medium closes at the announcement's expiry. |
| `ContractorProperties.BidOutcome` | src/feat/agencies/contracts.py:523-540 | The bid goes to the manager stamped `now + bid_timeout` and is kept as the medium's own. The medium expires at that same instant. |
| `ContractorProperties.GrantOutcome` | src/feat/agencies/contracts.py:679-694 | A Grant in `bid` moves the medium to `granted` and keeps the grant. The grant's sender becomes the manager, granted() is called, and the timer moves to the grant's expiry, going to `expired`. |
| `ContractorProperties.GrantOnlyAfterBid` | src/feat/agencies/contracts.py:619-645 | A Grant in any state but `bid`, for instance `announced`, is dropped. |
| `ContractorProperties.CancellationOutcome` | src/feat/agencies/contracts.py:702-706 | A Cancellation ends a granted contract as `cancelled` and a completed one as `aborted`. The matching handler is called, and the medium terminates. |
| `ContractorProperties.AnswerOutcome` | src/feat/agencies/contracts.py:696-700 | A Rejection in `bid` and an Acknowledgement in `completed` end the medium and call rejected() and acknowledged() respectively. |
| `ContractorProperties.EndingOperationsOutcome` | src/feat/agencies/contracts.py:542-580 | refuse(), handover() and defect() pass their message to the manager and terminate. The refusal and the cancellation arrive stamped with the contractor's own address. The handed-over bid arrives with the nested contractor's reply-to address and is kept as the medium's `bid`. |
| `ContractorProperties.WrongStateFails` | src/feat/agencies/contracts.py:556-567 | An operation called in a state that forbids it, such as refuse() from `granted`, leads to `wtf`. The timer is cancelled, the medium unregisters, and nothing is sent. |
| `ContractorProperties.FinalizeOutcome` | src/feat/agencies/contracts.py:582-598 | The report goes to the manager stamped `now + bid_timeout` and the contract is `completed`. It aborts at that instant without an acknowledgement. |
| `ContractorProperties.UpdateManagerAddressOutcome` | src/feat/agencies/contracts.py:600-605 | Afterwards the manager is `recp`, and nothing else changes. The medium changes only when the address differs. |
| `ContractorProperties.ExpireOutcome` | src/feat/agencies/contracts.py:674-694 | Each expiration call ends the medium, as follows:<br>• `announced` goes to `closed`;<br>• `bid` goes to `expired`;<br>• `granted` goes to `expired`, calling cancelled() with the grant;<br>• `completed` goes to `aborted`. |
| `ContractorProperties.HappyPath` | src/feat/agencies/contracts.py:506-706 | Announcement, bid, grant, finalize and acknowledgement, in order, end `acknowledged` and unregistered. The manager receives first the bid, then the report. |
| `Negotiation.GrantDeadlineShared` | src/feat/agencies/contracts.py:237-245 | A Grant that the manager's grant() sends, delivered to a contractor in `bid`, grants it. Its deadline is the manager's own, and its manager is the Grant's sender. |
| `Negotiation.BidExpirationBoundsClose` | src/feat/agencies/contracts.py:131-133 | A contractor's bid, once recorded and the window closes, gives the manager an expiry no earlier than the bid's own `now + bid_timeout`. |
| `Negotiation.HandoverRecordedForNestedContractor` | src/feat/agencies/contracts.py:542-554 | A handed-over bid reaches an announcing manager unchanged, with the nested contractor's address. The manager adds one record for it, keyed by that address and holding that bid. |
| `PyValues.Or` | src/feat/common/formatable.py:40-41 | Python's `a or b` is `a` exactly when `a` is true, otherwise `b`. |
| `Replay.SideEffectAsString` | src/feat/agencies/replay.py:61-68 | More than five arguments is an error; five or fewer is a description. |
| `Replay.CommonPrefixLength` | src/feat/agencies/replay.py:195-200 | The lists agree before this index and differ at it when both are longer. |
| `Replay.JournalReplayEntry.DifferingIndex` | src/feat/agencies/replay.py:195-200 | The counting loop over `zip(exp_args, args)` returns the length of the common prefix. |
| `Replay.JournalReplayEntry.RewindSideEffects` | src/feat/agencies/replay.py:166-167 | The cursor goes back to 0. |
| `Replay.JournalReplayEntry.NextSideEffect` | src/feat/agencies/replay.py:169-215 | The cursor and result follow the next_side_effect specification. |
| `Replay.JournalReplayEntry.Apply` | src/feat/agencies/replay.py:90-113 | The verdict of apply(), as follows:<br>• another agent's entry is refused;<br>• agency entries pass;<br>• an unregistered journal id fails;<br>• unconsumed side effects fail, listing the rest;<br>• a different replay result fails. |
| `Replay.ReplayDriver.Register` | src/feat/agencies/replay.py:273-278 | A journal id can be registered only once, and nothing else changes. |
| `Replay.ReplayDriver.LookupDummy` | src/feat/agencies/replay.py:379-380 | Returns the dummy registered under the id, or None for an absent id. |
| `Replay.ReplayDriver.RegisterDummy` | src/feat/agencies/replay.py:367-371 | Registering an id twice fails and leaves the dummies unchanged. |
| `Replay.ReplayDriver.UnregisterDummy` | src/feat/agencies/replay.py:373-377 | Unregistering an absent id fails, and afterwards the id is absent. |
| `Replay.ReplayDriver.Restore` | src/feat/agencies/replay.py:448-454 | Returns the registered dummy for a known id. Otherwise it registers and returns a new one of the factory's type. |
| `Replay.ReplayDriver.CheckSnapshot` | src/feat/agencies/replay.py:344-363 | The loop decides exactly the snapshot verdict: the same agent, as many protocols, and every restored protocol among the old ones. |
| `ReplayProperties.MissingPartsArePlaceholders` | src/feat/agencies/replay.py:31-45 | No arguments, or a false function id, give `ANY_FUNCTION(ANY_ARGS, ANY_KWARGS)`. |
| `ReplayProperties.PlaceholderText` | src/feat/agencies/replay.py:44-59 | The description of a call with no arguments, spelled out. |
| `ReplayProperties.PositionalArguments` | src/feat/agencies/replay.py:44-59 | A function id alone gives `f(ANY_ARGS, ANY_KWARGS)`. A tuple of arguments gives each one's repr(), followed by `ANY_KWARGS`. |
| `ReplayProperties.EmptyCall` | src/feat/agencies/replay.py:44-59 | An empty tuple and an empty dict give `f()`, and None arguments give `f(ANY_ARGS)`. |
| `ReplayProperties.ResultSuffix` | src/feat/agencies/replay.py:61-68 | The suffix `": " + repr(result)` appears only with exactly five arguments, and more than five is an error. |
| `ReplayProperties.FourArgumentsHaveNoResult` | src/feat/agencies/replay.py:26-29 | Four arguments print as `foo()`; only a fifth prints as the result. |
| `ReplayProperties.CursorAdvancesByOne` | src/feat/agencies/replay.py:172-177 | Each call advances the cursor by exactly one while side effects remain. Once they are exhausted it fails without moving. |
| `ReplayProperties.MismatchRules` | src/feat/agencies/replay.py:188-209 | A different function id always fails. Otherwise, differing arguments fail with the common-prefix index and differing keywords fail, unless the id is `SIDE EFFECT SKIPPED`. |
| `ReplayProperties.ReplayingTheRecordConsumesIt` | src/feat/agencies/replay.py:169-215 | Making exactly the recorded calls consumes every side effect, returns each recorded result, and applies their effects in order. |
| `ReplayProperties.RewindAndReplayPassesCheck` | src/feat/agencies/replay.py:108-113 | After a rewind, replaying the record passes the unconsumed check. A cursor short of the end fails it, reporting the rest. |
| `ReplayProperties.SnapshotAcceptsRearrangement` | src/feat/agencies/replay.py:354-363 | A permutation of the old protocols is accepted, and a protocol the old list lacks is rejected. |
| `ReplayProperties.SnapshotIgnoresMultiplicity` | src/feat/agencies/replay.py:359-363 | Only membership is compared: repeating one old protocol in place of another is accepted. |
| `Formatable.MakeField` | src/feat/common/formatable.py:10-13 | The serialized name is the given one, or the field name when none or an empty one is given. |
| `Formatable.FormatableClass.RegisterField` | src/feat/common/formatable.py:28-32 | Fields are appended in declaration order, and the list is created on first use. |
| `Formatable.FormatableObject.constructor` | src/feat/common/formatable.py:34-42 | Construction sets every declared field from the keyword arguments. |
| `Formatable.FormatableObject.SetFields` | src/feat/common/formatable.py:37-42 | The `_set_fields` loop gives exactly the specified attributes. |
| `Formatable.FormatableObject.Recover` | src/feat/common/formatable.py:54-59 | `recover` sets every field from the snapshot, read by serialized name. |
| `Formatable.FormatableObject.Snapshot` | src/feat/common/formatable.py:46-52 | The snapshot loop builds exactly the specified dictionary. |
| `FormatableProperties.FillAt` | src/feat/common/formatable.py:37-42 | Every declared field gets the value found under its key when that value is true, and a copy of its default otherwise. |
| `FormatableProperties.FillElsewhere` | src/feat/common/formatable.py:37-42 | Other attributes are untouched, and no other key is added. |
| `FormatableProperties.SnapshotHolds` | src/feat/common/formatable.py:46-52 | A field is in the snapshot, under its serialized name, exactly when its value is not None. |
| `FormatableProperties.SnapshotKeys` | src/feat/common/formatable.py:46-52 | The snapshot holds no key but the fields' serialized names. |
| `FormatableProperties.SnapshotRecoverRoundTrip` | src/feat/common/formatable.py:46-59 | `recover(snapshot(x))` restores every true field of `x` and resets every other field to its default. |
| `Alert.CallFactory` | src/feat/agents/base/alert.py:77-112 | A factory without a name, or without a severity, fails. An alert class keeps the name, severity, hostname, agent id and status info as given. A `DynamicAlert` keeps each of them only when it is true, holding None otherwise. |
| `Alert.AlertingAgent.constructor` | src/feat/agents/base/alert.py:128-137 | initiate() copies the class factories and starts with no statuses. |
| `Alert.AlertFactories.Register` | src/feat/agents/base/alert.py:121-124 | `_register_alert_factory` stores the factory under its name, replacing any earlier one. |
| `Alert.AlertingAgent.GenerateAlert` | src/feat/agents/base/alert.py:162-169 | An unknown service fails. Otherwise the service's factory is called. |
| `Alert.AlertingAgent.RaiseAlert` | src/feat/agents/base/alert.py:139-147 | Raising follows the raise specification, and notifies the poster with the generated alert. |
| `Alert.AlertingAgent.ResolveAlert` | src/feat/agents/base/alert.py:149-153 | Resolving follows the resolve specification, and notifies the poster. |
| `Alert.AlertingAgent.MayRaiseAlert` | src/feat/agents/base/alert.py:155-158 | The factory is registered under its name for this agent. |
| `Alert.AgentAdditionsStayLocal` | src/feat/agents/base/alert.py:128-137 | A factory added after initiate() does not reach the class registry. |
| `AlertProperties.RaisesCount` | src/feat/agents/base/alert.py:139-147 | After n raises, the count is the previous count, or 0 for an unseen service, plus n. The last status info is kept, and other services are untouched. |
| `AlertProperties.ResolveResets` | src/feat/agents/base/alert.py:149-153 | Resolving sets the count to 0, so the next raise counts 1. |
| `AlertProperties.DynamicAlertIsFormatable` | src/feat/agents/base/alert.py:93-112 | The alert a `DynamicAlert` produces holds, for name, hostname, agent id and status info, exactly what the formatable construction of DynamicAlert's declared fields gives from the same keyword arguments. |
| `AlertProperties.FalseStatusInfoBecomesNone` | src/feat/agents/base/alert.py:77-112 | A false status info becomes None in a `DynamicAlert`'s alert. An alert class's alert keeps it as given. |
| `Tunneling.Channel.Post` | src/feat/agencies/tunneling.py:36-56 | The message's reply-to and what is posted follow the post decision. Only forwarded messages reach the backend. |
| `Tunneling.Channel.Bind` | src/feat/agencies/tunneling.py:58-59 | Returns None. |
| `Tunneling.Channel.GetBindings` | src/feat/agencies/tunneling.py:61-62 | Returns an empty list. |
| `Tunneling.Channel.GetRecipient` | src/feat/agencies/tunneling.py:64-67 | The channel's own agent address, on the backend's channel type. |
| `TunnelingProperties.PostRules` | src/feat/agencies/tunneling.py:36-56 | A non-message raises. A dialog message whose reply-to is set but is not an agent address on `tunnel` is dropped. A dialog message without a reply-to gets the channel's own. Everything else is forwarded unchanged. |
| `TunnelingProperties.ForwardedDialogIsAnswerable` | src/feat/agencies/tunneling.py:42-56 | A forwarded dialog message carries a tunnel reply-to, so posting it again forwards it unchanged. |
| `EmuAgency.RemoveFirst` | src/feat/agencies/emu/agency.py:35-51 | `list.remove` removes the first occurrence of the element and keeps the rest in order. The length drops by one, and so does the element's multiplicity. |
| `EmuAgency.Agency.StartAgent` | src/feat/agencies/emu/agency.py:29-33 | The new medium joins its shard and is appended to the agents. |
| `EmuAgency.Agency.UnregisterAgent` | src/feat/agencies/emu/agency.py:35-36 | The agent is removed, and an agent not there fails. |
| `EmuAgency.Agency.JoinedShard` | src/feat/agencies/emu/agency.py:39-42 | The shard's list is created if absent, and the agent is appended. |
| `EmuAgency.Agency.LeftShard` | src/feat/agencies/emu/agency.py:44-51 | The agent is removed if present; otherwise an error is logged. The shard keeps its list either way. |
| `EmuAgency.AgencyAgent.RegisterListener` | src/feat/agencies/emu/agency.py:117-122 | Follows the registration specification. |
| `EmuAgency.AgencyAgent.LeaveShard` | src/feat/agencies/emu/agency.py:93-97 | The agency is told, and the descriptor's shard becomes None. The agency's shard list of the old shard follows the leave specification. An error is logged exactly when the agent was not in that list. |
| `EmuAgencyProperties.RemoveAppended` | src/feat/agencies/emu/agency.py:39-51 | Removing an element just appended, which was absent before, gives back the list. |
| `EmuAgencyProperties.JoinThenLeave` | src/feat/agencies/emu/agency.py:39-51 | Joining and then leaving restores the shard's list. The key stays even when its list is empty. |
| `EmuAgencyProperties.LeaveOutcome` | src/feat/agencies/emu/agency.py:44-51 | Leaving keeps every key. It removes one occurrence of a member, leaves a non-member's list alone, and touches no other shard. |
| `EmuAgencyProperties.RegisterListenerOnce` | src/feat/agencies/emu/agency.py:117-122 | A session id registers exactly when it is new, other listeners are kept, and a second registration fails. |

## Left out

- **Asynchronous machinery.** This covers Deferreds, `call_next` and `time.callLater`, plus the `_call` and `_run_and_terminate` error wrapping into `ProtocolFailed`. Business handlers are logged calls, and their results and failures are not modelled.
- **Handover.** `handover()` terminates on the next reactor tick. The model terminates it at once.
- **Transport and journaling.** This covers `_send_message`, `remote_id`, backend posting, interest and lobby binding, the journal, and serialization. Sent messages are an outbox log.
- **The mixins.** `StateMachineMixin` and `ExpirationCallsMixin` (in `feat/agencies/common.py`) are not part of this model. Their behaviour is modelled as the code shows it:
  - one active expiration call;
  - a table miss is dropped;
  - a failed `_ensure_state` goes to `wtf`;
  - a firing call sets its state, then terminates.
- **Expiration calls with no time.** An expiration call whose time is None never fires in the model (`Due` requires a time).
- **Source crashes.** These paths are excluded by preconditions:
  - `cancel()` with no `granted` or `completed` record raises a `NameError` in the source (contracts.py:266-272);
  - `_on_cancel` from an unknown contractor names an undefined `report` (contracts.py:391-393);
  - `reject()` and `grant()` of a bid without a record raise an `AttributeError`.
- **Message-class assertions.** The contract mediums' `assert isinstance(...)` checks of a message's class are preconditions (the message's `kind`): announce (contracts.py:193), the contractor's `__init__` (:495), bid (:526), handover (:546), refuse (:559), defect (:572) and finalize (:585). A call with a message of another class raises `AssertionError` before the medium changes; the model does not admit such a call.
- `ContractManager.AgencyManager.Cancel`: the reason is a string, and the source's default `reason=None` is not told apart from an empty reason, because message payloads are strings here.
- **A single grant pair.** `grant()` also accepts a single pair instead of a list; only the list form is modelled.
- **Message duplication.** Duplicating a message is the identity here: messages are values, and a copy differs only by identity.
- `ManagerProperties.GrantOutcome`: the manager's grant deadline is `now + grant_timeout`. The source reads `time.future`; the model receives `now` instead.
- **repr() and str().** `repr()` of Python values is a function parameter, and `str()` of a non-string value is not modelled in detail.
- **Serialization in apply().** `apply()` compares the replayed result with the recorded one by value, not through the serializer.
- **Agency entries in apply().** `apply()` treats an agency entry as passing; the dispatch of the driver's effect handlers is not modelled.
- **Net argument restoration.** `_restore_side_effect` unserializes arguments, and a missing tuple or dict becomes empty. The model reads stored values directly, through `RestoredArgs` and `RestoredKwargs`.
- **Side-effect descriptions in errors.** The model returns only the error kind, not the message text.
- **Replay docstring.** The docstring of `side_effect_as_string` (replay.py:28-29) shows four arguments printing a result. The code prints a result only for a fifth argument, and the model follows the code: see `ReplayProperties.FourArgumentsHaveNoResult`.
- **Formatable class hierarchy.** Field lists are not inherited through class hierarchies, and `copy.copy` of a default is the identity.
- **Formatable class with no fields.** Constructing an instance of a class that declares no fields raises a `TypeError` in the source. This requires `fields.Some?`.
- **Alert severities.** Only the two severities this repository's agents use are modelled: `warn` and `critical`. The `Severity` enumeration is defined in `feat/interface/alert.py`, which is not part of this model. Its members are taken to be true values, so a `DynamicAlert` keeps its severity.
- **Alert plumbing.** This covers the alert poster's transport, `AlertsDiscoveryContractor` and the `MroDict` inheritance of factories.
- **Tunnelling channel.** The channel's backend, `release`, `initiate` and `_dispatch` are outside the model.
- **Emulated agency.** These are outside the model:
  - messaging bindings and the database;
  - `callbackOnMessage`;
  - `initiate_protocol`;
  - the agent's own `initiate()`;
  - `on_message`, which reads an undefined `session_id` and a misspelled `_listener_factoriers` (agency.py:99-106).
