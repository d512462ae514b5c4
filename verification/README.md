# Verified model of the promotion platform

This project models the parts of the platform in which order, interruption or
repetition decide the result, and proves what they keep. It is written in Dafny
4.11; `dafny verify dfyconfig.toml` checks all of it. Nothing was executed: the
statements are about the model, which follows the source branch by branch.

## What is modelled

- **Conversion worker** (`ConversionStore`, `ConversionProtocol`,
  `ConversionSafety`, `ConversionTheorems`, `ConversionOutcomes`,
  `ConversionExecutor`). Any number of
  workers run `RunPending` and `Recover` against one row per request, fenced by
  version numbers and a lease, over a channel that may fail, time out or answer
  anything. Each repository call, each gateway call and each reply is a step of
  its own, and a worker can stop between any two. `Cluster` holds the code in the
  order the source has it; a ghost history proves that each call is a run of the
  protocol.
- **Reservation** (`Reservation`, `ReservationDesk`). `Convert` and `Reserve`:
  idempotent booking of a request with its Tracking row while others edit
  memberships, positions, previews and mappings.
- **Locks** (`Locks`, `LockTheorems`, `LockRotations`, `LockEffects`). The same transactions and the
  administrative ones at the grain of single row locks, with no assumption about
  how waiting transactions are queued.
- **Orders** (`OrderEvidence`, `OrderProjection`, `OrderHistory`, `OrderDelivery`,
  `OrderAnswers`).
  Channel events, saved once each and then delivered in any order and repeatedly,
  projected onto order rows with a ledger.
- **Materials** (`MaterialCatalog`, `MaterialPaging`). The refilling page read, the
  single read and the predicate both must agree with.
- **Promoters** (`Membership`, `MembershipHistory`, `Positions`,
  `PositionHistory`). Applications, reviews, positions and their external mappings
  with versions, audits and receipts.
- **Coupons** (`CouponSync`, `CouponHistory`, `CouponClaims`, `ClaimSafety`,
  `ClaimOutcomes`, `ClaimDesk`). Publication from verified snapshots, and the claim protocol.
- **Codecs** (`CatalogBindings`, `Bytes`, `NulJoined`, `Cursors`) and
  **migrations** (`Migrations`).
- **Client view models** (`MaterialsModel`, `MaterialsViewModel`,
  `MaterialsHistory`, `MaterialsScreen`, and the same for orders). Awaited requests are pending
  flights whose replies arrive at any time.

Where the source updates state in place, a class carries its methods, and each
method is proved equal to a specification function; the theorems are about those
functions and about every sequence of their uses.

## Where the source does less than one might expect

- A lease does not fence the channel. A worker whose lease has run out still sends
  its Create after `Recover` may have closed the request
  (`ConversionTheorems.CreateAfterExpiredLease`); what holds is that this remains
  the only Create.
- Delivery order of order events is irrelevant exactly when some newest event can
  follow each of the others (`OrderDelivery.OrderIrrelevantIffWinner`). A sorted
  history that follows the transition relation always has one.
- The conversion fingerprint separates its parts by NUL characters that `validText`
  does not exclude (`Reservation.FingerprintIdentifies`). The text columns of
  PostgreSQL cannot hold NUL, so no stored request is affected; the model assumes
  this of stored positions and previews.
- The unique index on external positions is outside the lock order: administrators
  who pass external positions round among promoters can all end up waiting for each
  other, from the empty database on (`LockRotations.RotationBlocksFromStart`). Nothing
  else can (`LockTheorems.CyclesAreRotations`). No call is at risk while none in flight
  asks for an external position that another position has
  (`LockTheorems.NoExchangeNoCycle`), and for calls on different positions the risk is
  exactly such an exchange among them (`LockRotations.BlockIffExchange`).
- The newest coupon evidence wins in every order of delivery only if its reference is
  not used by another snapshot that could be accepted first, because the event log
  keeps one row per reference (`CouponHistory.NewestWinsInEveryOrder`). With nothing
  stored it must besides be a publication, because a revocation that arrives before
  the first publication is lost (`CouponHistory.FirstPublicationWinsInEveryOrder`).
- The cursors of the coupon lists are not canonical: they are decoded leniently, so a
  line end or other unused bits make a second spelling of each
  (`Cursors.ListCursorRespelled`, `Cursors.ListCursorRepadded`). The material cursor has
  one spelling (`Cursors.CursorIsCanonical`).
- A replayed position change returns the row without its channel readiness, which the
  stored receipt leaves out (`PositionHistory.ChangeReplays`).
- "Stale replies are ignored" in the client models has one exception, a login refusal
  of the session still in force (`MaterialsHistory.StaleReplies`,
  `OrdersHistory.StaleReplies`).

## Assumptions

- One clock serves application and database; it does not run backwards in the
  conversion protocol. Where the source reads the clock twice, the readings are
  separate parameters.
- SHA-256 is injective: a fingerprint or checksum stands for its pre-image. Random IDs
  are arbitrary; a collision breaks a unique index and writes nothing.
- A transaction that fails, or whose statement fails, writes nothing. In the worker
  protocols such a failure is an abort between two steps.
- URL validators, JSON decoding and JSON tokens, the channel, the requoting service and the clock are
  parameters; theorems hold for all of them, with a JSON decoder only required to
  accept what the encoder wrote where a round trip is claimed.
- A character is one Unicode scalar value, its length is that of its UTF-8 form.

## Model

| member | source | states |
|---|---|---|
| ConversionTheorems.AtMostOneCreate | internal/conversion/executor.go:56-160 | In every run of any number of workers, with crashes and timeouts between any two calls, Create is invoked for a request at most as often as its stored attempt count, and that is at most once |
| ConversionTheorems.EveryCreateIsJustified | internal/conversion/executor.go:71-108 | Every Create carried the tracking ID of its own stored request and the previewed product, on terms just requoted, with preview and quote unexpired when last checked |
| ConversionTheorems.RowsKeepTheirShape | internal/conversion/state_repository.go:17-122 | Status, version (1 to 4), attempt count, lease, channel request ID, failure code and link of a stored row always stand in one fixed relation |
| ConversionTheorems.StepMovesRows | internal/conversion/state_repository.go:60-122 | One event leaves a row alone or makes exactly one permitted move that raises its version by one |
| ConversionTheorems.TerminalRowsNeverChange | internal/conversion/state_repository.go:76-122 | A row that is SUCCEEDED or FAILED_FINAL is the same in every later state |
| ConversionTheorems.OneOutcome | internal/conversion/executor.go:96-160 | All calls that return a terminal record for one request return the same record, and it is the stored one |
| ConversionTheorems.LinksComeFromTheChannel | internal/conversion/executor.go:109-157 | A stored link was reported by Create or Lookup for this very request and passed both validators |
| ConversionTheorems.InvalidResultIsNeverSent | internal/conversion/executor.go:75-101 | A request closed as INVALID_RESULT has no Create anywhere in the run, before or after |
| ConversionTheorems.UnfinishedIsWaitingLeasedOrRecoverable | internal/conversion/executor.go:131-137 | Every unfinished request is PENDING, PROCESSING under a running lease, or satisfies both the recovery filter and the guard of Recover |
| ConversionTheorems.FilterIsGuard | internal/conversion/state_repository.go:149-169 | The recovery query selects exactly the rows that Recover accepts: those past PENDING without an outcome whose lease, if any, has run out |
| ConversionTheorems.AttemptsNeedEligibility | internal/conversion/state_repository.go:34-66 | The attempt count grows only by a claim of a PENDING row whose owner and position are ENABLED at that moment |
| ConversionTheorems.CreateUnderLease | internal/conversion/executor.go:96-108 | While its lease runs, a worker about to send Create finds the stored row exactly as it claimed it |
| ConversionTheorems.CreateAfterExpiredLease | internal/conversion/executor.go:97-146 | Once the lease has run out nothing protects it: from every reachable state in which the row is still as claimed, a recovery worker can close the request as rejected and the claimant still sends its one Create |
| ConversionTheorems.ExpiredLeaseIsReached | internal/conversion/executor.go:56-160 | From the empty table every fresh request can come to stand before its Create with the lease run out; Recover then closes it as rejected and Create is still sent |
| ConversionOutcomes.OutcomesWereTold | internal/conversion/executor.go:71-160 | Every stored outcome was learned by a worker that held this very request: CHANNEL_REJECTED from a rejection by Create or Lookup, a link from an accepted answer, QUERY_REQUIRED from silence or an unusable link, INVALID_RESULT from an unfit preview or quote |
| ConversionOutcomes.CarriedWasTold | internal/conversion/executor.go:71-160 | Whatever a worker goes by it was told about its own request; in particular a recovery stands ready to close a request for good only after Lookup rejected it |
| ConversionOutcomes.LearnsWhatItIsTold | internal/conversion/executor.go:71-160 | An event gives a worker a verdict if and only if it tells it that verdict, case by case over the answers of preview, requoting, Create and Lookup |
| ConversionOutcomes.StoresWhatItCarries | internal/conversion/state_repository.go:76-122 | A worker stores its verdict in its request and nowhere else, exactly when the row is still the one it holds; otherwise it gets a state conflict |
| ConversionOutcomes.NothingNewIsHandedBack | internal/conversion/executor.go:143-148 | A recovery that learns nothing about a FAILED_RETRYABLE request hands its copy back unwritten |
| ConversionOutcomes.CreatesRelyOnAnswers | internal/conversion/executor.go:67-108 | Every Create went to the account and external position that were found for this request, for the preview read and the quote given for it, after a second look at its eligibility |
| ConversionOutcomes.ClaimGoesThroughIff | internal/conversion/state_repository.go:17-72 | A claim goes through exactly when the row is the one loaded and owner and position are ENABLED, and then holds a lease of one minute |
| ConversionOutcomes.FailedPreparationEndsTheCall | internal/conversion/executor.go:67-95 | An error of a check, of the preview or of requoting ends the call with that error, writes nothing and sends nothing |
| ConversionOutcomes.StartsOnlyWhereItMay | internal/conversion/executor.go:56-66 | A call starts with the stored row of a request it may work on; any other ends at once with an error and changes nothing |
| ConversionSafety.StepKeeps | internal/conversion/executor.go:56-160 | Each single event keeps the whole invariant: row shapes, fenced copies, one claimant per request, justified calls, agreeing results |
| ConversionSafety.CommitKeeps | internal/conversion/state_repository.go:76-122 | A compare-and-swap that succeeds keeps the invariant although other workers hold older copies of the row |
| ConversionExecutor.Cluster.RunPending | internal/conversion/executor.go:56-120 | The worker as written is a run of the protocol under arbitrary interference; it returns what it logged, at most one Create exists, a terminal result is the stored row, and the record returned is the one its answers call for |
| ConversionExecutor.Cluster.Recover | internal/conversion/executor.go:123-160 | Recover as written is a run of the protocol with the same guarantees; it returns SUCCEEDED with the link found, CHANNEL_REJECTED only after a rejection, QUERY_REQUIRED after UNKNOWN or an error, and is unavailable only for other answers |
| ConversionExecutor.Cluster.LookupReturned | internal/conversion/executor.go:139-160 | What follows each answer of Lookup, case by case |
| ConversionExecutor.Cluster.Claim | internal/conversion/state_repository.go:17-72 | Claim as written computes the specified transition or leaves the table alone |
| ConversionExecutor.Cluster.MarkUncertain | internal/conversion/state_repository.go:76-85 | As written it is the specified compare-and-swap to FAILED_RETRYABLE |
| ConversionExecutor.Cluster.MarkFinal | internal/conversion/state_repository.go:87-97 | As written it is the specified compare-and-swap to FAILED_FINAL |
| ConversionExecutor.Cluster.RejectPending | internal/conversion/state_repository.go:100-109 | As written it is the specified compare-and-swap from PENDING to FAILED_FINAL |
| ConversionExecutor.Cluster.MarkSucceeded | internal/conversion/state_repository.go:113-122 | As written it is the specified compare-and-swap to SUCCEEDED with its link |
| ConversionExecutor.Cluster.RecoveryCandidates | internal/conversion/state_repository.go:149-169 | Returns the first rows of the listing that the recovery filter selects, up to the limit, and refuses other limits |
| ConversionExecutor.CandidatesPrefix | internal/conversion/state_repository.go:149-169 | Stopping at the limit yields a prefix of all candidates |
| Reservation.SuccessesAgree | internal/conversion/service.go:49-113 | Two successes for one owner and key, at any two moments of any run, are for the same input and carry the same request and tracking IDs |
| Reservation.KeysStay | internal/conversion/repository.go:123-132 | A reserved key keeps its request, its Tracking ID and its fingerprint for ever |
| Reservation.OneTrackingRowEach | internal/conversion/repository.go:185-200 | Each request has exactly one Tracking row of its own, made at the same moment for the same owner; no two requests share an ID or a Tracking ID |
| Reservation.ReservedKeyDecides | internal/conversion/repository.go:123-129 | With a reserved key the same input gets the stored request whatever became of position, preview and mapping, any other input conflicts, and neither writes |
| Reservation.InsertedIsEligible | internal/conversion/repository.go:108-203 | A row is inserted only for an ENABLED owner and position, an unexpired preview and the READY mapping that was quoted; exactly one request and one Tracking row are added, and the worker protocol accepts the request as fresh |
| Reservation.InsertsIffEligible | internal/conversion/repository.go:108-203 | A new key is reserved exactly when owner, position, preview, mapping and times are in order and the drawn IDs are free |
| Reservation.InsertedSays | internal/conversion/repository.go:166-203 | The columns of the inserted request and of its Tracking row |
| Reservation.FingerprintIdentifies | internal/conversion/service.go:58-63 | The hashed text determines position, preview and scene if and only if none of the three contains a NUL character |
| Reservation.SameFingerprint | internal/conversion/service.go:58-63 | If one of two inputs is free of NUL they share a fingerprint only when they are equal |
| Reservation.AcceptedInputsCanShareAFingerprint | internal/conversion/repository.go:59-61 | validText lets NUL through: two different valid inputs with one fingerprint |
| Reservation.RunKeeps | internal/conversion/repository.go:96-203 | Every run keeps keys, fingerprints and Tracking rows of requests consistent |
| ReservationDesk.Desk.Convert | internal/conversion/service.go:49-113 | Convert as written, under arbitrary interference: a success is the request stored under its key for exactly this input and an ENABLED owner; a row is inserted only after the owner was eligible, the quote repeated the terms of an unexpired preview, and the owner was eligible again; a failure inserted nothing, and at some moment of the call the tables gave cause for its error |
| ReservationDesk.Desk.Reserve | internal/conversion/repository.go:96-203 | Reserve as written computes the specified result and tables |
| ReservationDesk.Desk.Check | internal/preview/eligibility.go:11-38 | The eligibility check as written gives the verdicts of the join of membership, position and mapping |
| ReservationDesk.ChecksEligibility | internal/preview/eligibility.go:11-38 | The check passes exactly for an ENABLED owner and position with a READY mapping, and each error names a fault that is there |
| ReservationDesk.Desk.Interfere | internal/conversion/service.go:49-113 | Whatever the others do inserts no row on behalf of this caller |
| LockTheorems.CyclesAreRotations | internal/promoter/channel_positions_repository.go:35-104 | In every reachable state of concurrent Reserve, Claim, position changes, configurations, reviews and submissions the cycles of waiting transactions are exactly the rotations at the unique index: configurations each of which asks for the external position that the next one is about to change. No row lock or advisory lock is part of one |
| LockTheorems.NoExchangeNoCycle | internal/promoter/channel_positions_repository.go:96-104 | As long as no configuration in flight asks for an external position that another position has, no reachable state has a wait cycle, whatever else is in flight |
| LockRotations.BlockIffExchange | internal/promoter/channel_positions_repository.go:35-104 | Given any number of configurations of different positions, tried again until they commit, and any idle state: some interleaving leaves transactions waiting in a circle if and only if some of the calls would be accepted, share no owner and no idempotency scope, and pass the external positions their positions have now round |
| LockRotations.ExchangeBlocks | internal/promoter/channel_positions_repository.go:62-104 | Whenever calls among any number of configurations pass their external positions round, an interleaving without a commit leaves all of these waiting for each other |
| LockRotations.RotationBlocksFromStart | internal/promoter/channel_positions_repository.go:62-104 | From the empty database a run of reviews, creations and configurations gives any number of promoters different external positions, and then each getting the next one's ends in one circle of all of them |
| LockTheorems.SomebodyMoves | internal/conversion/repository.go:108-164 | From any transaction the waiting leads to one that does not wait, whose lock is free, or that waits at the unique index, whatever the queueing policy |
| LockTheorems.CommittedWorkIsEligible | internal/conversion/state_repository.go:34-72 | At the commit of a claim or a new reservation owner and position are ENABLED, and the commit changes neither |
| LockTheorems.LockEdgeClimbs | internal/promoter/positions_repository.go:39-111 | A transaction waiting for a row waits only for one that stands higher in the lock order or queued earlier |
| LockEffects.ExternalPositionsStayUnique | internal/promoter/channel_positions_repository.go:96-109 | In every reachable state of the concurrent transactions no two positions have one external position |
| LockEffects.PassesTheIndexIff | internal/promoter/channel_positions_repository.go:96-109 | A configuration passes the unique index exactly when no transaction in flight has a claim to the entry and no other position has it |
| LockEffects.LockedMappingStays | internal/conversion/repository.go:155-164 | A mapping that was locked, shared or not, is assigned by nobody else until its reader ends |
| LockEffects.FinishedHolds | internal/conversion/repository.go:108-164 | What each transaction holds when it is ready to commit |
| LockEffects.CommitEffect | internal/promoter/admin_repository.go:27-101 | What each commit changes of memberships, positions and mappings, and that the others change nothing |
| Locks.PlansAreDisciplined | internal/promoter/positions_repository.go:39-111 | Every operation locks in the order advisory, profile, position, then mapping, request or application, and reads and writes under the locks it needs |
| Locks.StepKeeps | internal/promoter/admin_repository.go:27-101 | Each lock, wait, abort and commit keeps locks compatible and every checked fact true until its reader ends |
| OrderDelivery.OrderIrrelevantIffWinner | internal/order/projection.go:35-150 | All delivery orders of a set of ORDER evidence end in the same status, status time and first time if and only if some newest event can follow each of the others |
| OrderDelivery.DeliveryConverges | internal/order/projection.go:115-150 | With such an event any delivery, in any order and with repeats, ends in its status and time and in the earliest time seen |
| OrderDelivery.ChainEndsInItsLast | internal/order/projection.go:35-52 | Evidence that follows the transition relation in time order ends in its last status whatever the delivery |
| OrderDelivery.WithoutWinnerOrderMatters | internal/order/projection.go:128-149 | Without such an event two rearrangements of the same deliveries end in different statuses |
| OrderDelivery.PaidAfterCancelled | internal/order/projection.go:128-149 | A stored cancellation and a later payment are such deliveries: one order ends CANCELLED, the other PAID |
| OrderHistory.LedgerExplainsOrder | internal/order/projection.go:106-195 | order_occurred_at is the earliest time of any recorded ORDER evidence, status_at the latest confirming time, and the ledger rows of an order chain from its first status to the stored one |
| OrderHistory.TerminalStatusIsFinal | internal/order/projection.go:39-41 | Once an order is CANCELLED, INVALID or REFUNDED every later ledger row leaves it so |
| OrderHistory.RefundedOnlyByFullRefund | internal/order/projection.go:48-50 | Only a ledger row of a full refund leads to REFUNDED |
| OrderAnswers.RefundedIffFullRefund | internal/order/projection.go:151-184 | In every run an order is REFUNDED if and only if some delivery of a FULL refund of it was answered with success |
| OrderAnswers.PartialRefundLeavesOrders | internal/order/projection.go:166-184 | A PARTIAL refund leaves every order row as it is |
| OrderAnswers.RefundIsAcceptedIff | internal/order/projection.go:151-184 | A new refund is accepted exactly when the order is paid for and open and the refund ID is new; a FULL one ends the order at the later of both times |
| OrderAnswers.LedgerAndRefundsAgree | internal/order/projection.go:166-195 | In every run each ledger row has the status or kind of refund its input names, and each refund is booked in the ledger and in its table with the same evidence, amount, kind and time |
| OrderAnswers.DispositionsAndLatestEvidence | internal/order/projection.go:115-150 | In every run the disposition of each delivered status follows from the times recorded before it, and the latest evidence is that of the last row that changed the status or confirmed it at a later time |
| OrderAnswers.TransitionsAre | internal/order/projection.go:35-52 | The permitted transitions, pair by pair |
| OrderAnswers.NamesAreRead | internal/order/projection.go:30-33 | Each status but REFUNDED is read from its own name and from no other |
| OrderAnswers.RefusalsName | internal/order/projection.go:56-165 | Each error names a fault that is there, and a refusal writes nothing |
| OrderHistory.AtMostSixChanges | internal/order/projection.go:30-52 | An order changes its status at most six times after it was created |
| OrderHistory.ReplayIsInvisible | internal/order/projection.go:92-105 | Inserting a repeat of a committed delivery at any later point changes no state and no other reply, and returns the original receipt |
| OrderHistory.RemapIsRefused | internal/order/projection.go:97-100 | The same evidence with any other input is refused without a write, now and at any later time |
| OrderHistory.RunKeeps | internal/order/projection.go:56-196 | Every run of saved and delivered events keeps ledger, orders and refunds consistent |
| OrderProjection.ProjectionStore.ApplyInput | internal/order/projection.go:56-196 | Apply as written computes the specified result and tables |
| OrderProjection.ProjectionStore.Write | internal/order/projection.go:115-150 | The status branch as written is the specified observation of one event |
| OrderProjection.ProjectionStore.WriteRefund | internal/order/projection.go:151-184 | The refund branch as written is the specified one |
| OrderProjection.ProjectionStore.Save | internal/order/evidence.go:101-107 | The arrival of an event under its evidence ID: it is stored once and never replaced |
| OrderEvidence.Store.Save | internal/order/evidence.go:77-126 | Save as written computes the specified answer and table: invalid events, repeats, events that differ from the stored one and taken IDs write nothing |
| OrderEvidence.SuccessesAgree | internal/order/evidence.go:109-126 | Two successes name the same evidence exactly when they are for the same event of the same channel, and then order, type, time to the microsecond and payload are the same |
| OrderEvidence.CreatedOnce | internal/order/evidence.go:101-126 | A success reports that it created the evidence exactly when no earlier call succeeded for that event |
| OrderEvidence.RepeatAgreesOrConflicts | internal/order/evidence.go:121-126 | Once an event is saved, at any later time a valid event of the same ID is answered with the stored one exactly when no field differs, and is a conflict otherwise; neither writes |
| OrderEvidence.EvidenceStays | internal/order/evidence.go:101-107 | Stored evidence is never changed or removed |
| OrderEvidence.SaveFeedsProjection | internal/order/evidence.go:77-126 | For the projection a save that creates evidence is one event arriving under a new ID, and any other save is nothing |
| MaterialPaging.PagesLoseAndRepeatNothing | internal/material/repository.go:55-111 | On a fixed table, whatever the limits, the pages read so far and what the last cursor still leads to make up exactly the rows CardFor grants, in ID order; the end comes after at most one page more than there are cards |
| MaterialPaging.PagesShowExactlyTheOffered | internal/material/repository.go:48-111 | Whatever the limits, the pages hold exactly the cards of the rows that are selected and validate |
| MaterialPaging.GetAgreesWithList | internal/material/detail.go:47-72 | A card is on some page if and only if Get for its ID answers Available with that card |
| MaterialPaging.GetShowsExactlyTheOffered | internal/material/detail.go:46-77 | The single read shows a card exactly when its row is one of these, its owner is enabled and the capability granted |
| MaterialPaging.ChangingPagesAscend | internal/material/repository.go:55-111 | While the catalog changes between pages IDs still strictly increase, so no card is shown twice |
| MaterialPaging.ShownFrom | internal/material/repository.go:73-94 | Continuing after the n-th shown card shows exactly the others |
| MaterialCatalog.List | internal/material/repository.go:25-116 | The refill loop ends and returns exactly the page of the first shown cards after the cursor, with a cursor only if more follow |
| MaterialCatalog.Scan | internal/material/repository.go:73-94 | One refill moves granted cards from what is left to the page and loses none |
| MaterialCatalog.Get | internal/material/detail.go:23-78 | The single read answers as specified |
| MaterialCatalog.CheckRegion | internal/material/model.go:76-95 | The loop over city codes accepts exactly the valid regions |
| MaterialCatalog.GrantedIsSelected | internal/material/model.go:135-173 | Whatever CardFor grants is selected by the SQL filter of List |
| MaterialCatalog.GrantedIff | internal/material/model.go:135-175 | A row is granted exactly when the statement selects it, it validates and the context is valid (before year 1 also only with a start) |
| MaterialCatalog.CardSaysWhatTheRowSays | internal/material/model.go:171-175 | A card carries the row's own values, column by column |
| MaterialCatalog.DeniedForTheFirstReason | internal/material/model.go:135-168 | A row is denied for the first of the ten reasons that holds of it |
| MaterialCatalog.ShownAreCardsOfMatching | internal/material/repository.go:63-94 | Filtering in SQL and then by CardFor shows the same cards as CardFor alone |
| MembershipHistory.VersionCountsHistory | internal/promoter/postgres_repository.go:28-78 | A membership version is the number of its applications plus the number of its audits, after any history |
| MembershipHistory.OnePendingApplication | internal/promoter/postgres_repository.go:40-73 | At most one application of a user is PENDING; there is one exactly when the profile is, and it is the current one |
| MembershipHistory.ReviewsUpdateOneRow | internal/promoter/admin_repository.go:85-97 | In every reachable state a review that passes the profile checks updates exactly one application, so the conflict branch for another number is never taken |
| MembershipHistory.EnabledByAnotherPersonsReview | internal/promoter/admin_repository.go:50-64 | An ENABLED membership was last touched by an approving review of its current application by somebody else |
| MembershipHistory.SubmitReplays | internal/promoter/postgres_repository.go:48-60 | Repeating a submission after anything else returns the application first stored and changes nothing; another form conflicts |
| MembershipHistory.SubmitIsAcceptedIff | internal/promoter/postgres_repository.go:31-78 | An application under a new key is accepted exactly when it is complete, its ID is new and its user has not applied yet or was rejected |
| MembershipHistory.UsedKeyDecides | internal/promoter/postgres_repository.go:46-60 | Under a used key the first application is returned exactly when name, scene and agreement are the same |
| MembershipHistory.AdminReplays | internal/promoter/admin_repository.go:31-49 | Repeating a command after anything else returns the profile as it was then and changes nothing; another command under the key conflicts |
| MembershipHistory.ReviewIsAcceptedIff | internal/promoter/admin_repository.go:27-101 | A new review is accepted exactly for the pending application of a pending user at the version seen, with a reason, by somebody else |
| MembershipHistory.DisableIsAcceptedIff | internal/promoter/admin_repository.go:27-101 | A new disabling is accepted exactly for an ENABLED user at the version seen, with a reason, by somebody else |
| MembershipHistory.DecisionWrites | internal/promoter/admin_repository.go:68-101 | The profile, application and audit row a decision leaves, column by column |
| MembershipHistory.RunKeeps | internal/promoter/model.go:67-118 | Every history of submissions, reviews and disablings keeps profiles, applications and audits consistent |
| Membership.Store.Submit | internal/promoter/postgres_repository.go:28-78 | Submit as written computes the specified result and tables |
| Membership.Store.ExecuteAdmin | internal/promoter/admin_repository.go:12-118 | ExecuteAdmin as written computes the specified result and tables |
| PositionHistory.AtMostOneDefault | internal/promoter/positions_repository.go:101-106 | After any history each owner has at most one default position, and it is ENABLED |
| PositionHistory.VersionCountsWrites | internal/promoter/positions_repository.go:84-111 | A position version is one plus the writes that touched the row, including losing the default flag to another position |
| PositionHistory.ChangeTouches | internal/promoter/positions_repository.go:78-111 | A change writes its own row, clears the flag of the owner's other default if it sets one, and touches nothing else |
| PositionHistory.ChangeIsAcceptedIff | internal/promoter/positions_repository.go:39-100 | A change under a new key is accepted exactly when its owner is ENABLED and the position theirs, ENABLED and at the version seen |
| PositionHistory.ChangeWrites | internal/promoter/positions_repository.go:72-131 | The row each command leaves, column by column, and its receipt |
| PositionHistory.ChangeRefusals | internal/promoter/positions_repository.go:39-100 | Each error names a fault that is there, and a refusal writes nothing |
| PositionHistory.DisabledForGood | internal/promoter/positions_repository.go:87-89 | Once disabled a position is never written again |
| PositionHistory.ChangeReplays | internal/promoter/positions_repository.go:51-68 | While the owner is ENABLED a repeated change returns the row as written then, without its readiness, and writes nothing; another command conflicts |
| PositionHistory.ConfigureReplays | internal/promoter/channel_positions_repository.go:41-55 | A repeated assignment returns the mapping made then and writes nothing, whatever became of position, owner and mapping |
| PositionHistory.ConfigureIsAcceptedIff | internal/promoter/channel_positions_repository.go:62-109 | A new assignment is accepted exactly when position and owner are ENABLED, the mapping is at the version seen and no other position has the entry |
| PositionHistory.ConfigureWrites | internal/promoter/channel_positions_repository.go:96-129 | The mapping and the event it leaves, and nothing else |
| PositionHistory.MappingVersionCountsAssignments | internal/promoter/channel_positions_repository.go:87-101 | A mapping version is the number of assignments of its position |
| PositionHistory.ExternalPositionsAreUnique | internal/promoter/channel_positions_repository.go:102-107 | No external position is assigned to two positions |
| Positions.Store.ChangePosition | internal/promoter/positions_repository.go:27-131 | ChangePosition as written computes the specified result and tables |
| Positions.Store.ConfigureChannelPosition | internal/promoter/channel_positions_repository.go:23-129 | ConfigureChannelPosition as written computes the specified result and tables |
| CouponHistory.NewestWinsInEveryOrder | internal/coupon/sync.go:57-131 | Given a stored coupon, the newest of a set of valid snapshots ends up shown after every order of delivery if and only if no other snapshot that could be accepted first carries its evidence reference |
| CouponHistory.FirstPublicationWinsInEveryOrder | internal/coupon/sync.go:57-131 | With nothing stored, the newest of a set of valid snapshots ends up shown after every order of delivery if and only if it is a publication, no other publication carries its evidence reference, and a revocation that does is not newer than any other publication |
| CouponHistory.NewestWins | internal/coupon/sync.go:67-131 | Then evidence, time and enabled flag are the newest ones, and after a publication content and product set are exactly the published ones, even with repeats |
| CouponHistory.HistoryIsConsistent | internal/coupon/sync.go:81-131 | After any history the event log is strictly increasing in time, its last entry is the coupon's evidence, time and state, and every product has the coupon's state and time |
| CouponHistory.ShelvedExactly | internal/coupon/sync.go:108-120 | A publication stores its products, each exactly once, and no others |
| CouponHistory.RevocationFirstIsLost | internal/coupon/sync.go:81-84 | The shortest loss: a publication and its revocation end differently in the two orders |
| CouponHistory.ReplayIsSilent | internal/coupon/sync.go:75-79 | Repeating the evidence in force succeeds and changes nothing |
| CouponHistory.AcceptedIff | internal/coupon/sync.go:57-131 | A snapshot is accepted exactly when it repeats the evidence in force or is news: newer, of the same platform, under a new reference, and for a revocation with something to revoke |
| CouponHistory.NewsWrites | internal/coupon/sync.go:81-131 | A publication stores the verified content; a revocation disables coupon and products and leaves their content alone |
| CouponHistory.ValidCallsDeliver | internal/coupon/sync.go:34-56 | Calls whose snapshots pass validation are such deliveries |
| CouponSync.CheckProducts | internal/coupon/sync.go:158-167 | The loop with its map of seen IDs accepts exactly lists of valid, distinct products |
| CouponSync.Synchronizer.Sync | internal/coupon/sync.go:34-131 | Sync as written computes the specified result for its coupon and leaves all others alone |
| CouponSync.Synchronizer.Store | internal/coupon/sync.go:57-131 | The transaction as written computes the specified result |
| ClaimSafety.AtMostOneClaim | internal/coupon/claim_service.go:56-102 | In every interleaving the channel is asked to claim at most once per stored claim, and never for anything not stored |
| ClaimSafety.OutcomesAreFinal | internal/coupon/claims.go:101-125 | CLAIMED and FAILED claims never change again |
| ClaimSafety.EvidenceIffClaimed | internal/coupon/claim_service.go:120-133 | Evidence is stored exactly for CLAIMED claims and is then a valid reference |
| ClaimSafety.OneOutcome | internal/coupon/claim_service.go:112-133 | All calls that return an outcome for one claim return the stored one |
| ClaimSafety.FingerprintIdentifies | internal/coupon/claim_service.go:43-46 | Valid inputs share a fingerprint exactly when coupon, city and business are the same |
| ClaimSafety.StepKeeps | internal/coupon/claim_service.go:56-133 | Each store call, catalog read, channel call and reply keeps the invariant |
| ClaimOutcomes.OutcomesWereTold | internal/coupon/claim_service.go:56-133 | Every stored outcome was learned by a call that held this very claim: evidence and failure from the channel or a withdrawn offer, QUERY_REQUIRED from any other answer |
| ClaimOutcomes.LearnsWhatItIsTold | internal/coupon/claim_service.go:93-133 | An event gives a call an outcome if and only if it tells it so, answer by answer |
| ClaimOutcomes.StoresWhatItCarries | internal/coupon/claims.go:101-125 | A call writes the outcome it learned into its own claim and nowhere else, exactly when that has none yet |
| ClaimOutcomes.ReturnsTheStored | internal/coupon/claim_service.go:129-133 | After the write the call returns the stored claim, or a conflict if it was to record another outcome directly |
| ClaimOutcomes.ClaimsWereOffered | internal/coupon/claim_service.go:71-92 | Every claim was made, column by column, for an input whose coupon was found claimable on site |
| ClaimOutcomes.SentClaimsWereStillOffered | internal/coupon/claim_service.go:93-101 | The channel was asked to claim only after a second look found the coupon still claimable on site |
| ClaimOutcomes.RepeatedKeyAnswers | internal/coupon/claim_service.go:60-70 | Under a stored key the same input is answered with the outcome or asks about it, any other conflicts |
| ClaimOutcomes.OnlyTheOwnersClaimIsRead | internal/coupon/claim_service.go:104-118 | A claim is found by its owner and ID only |
| ClaimDesk.Desk.CreateClaim | internal/coupon/claim_service.go:56-102 | Create as written is a run of the protocol under arbitrary interference; it answers with a claim for exactly this owner, key, coupon and context, at most one claim was sent for it, and a returned outcome is the stored one |
| ClaimDesk.Desk.GetClaim | internal/coupon/claim_service.go:104-118 | Get as written answers with the claim of this owner and ID, with the same guarantees |
| ClaimDesk.Desk.InsertClaim | internal/coupon/claims.go:66-76 | The insert of Reserve adds the claim exactly when owner and key are new |
| ClaimDesk.Desk.UpdateOutcome | internal/coupon/claims.go:108-116 | The update of SetOutcome writes exactly claims without an outcome |
| CouponClaims.CheckKey | internal/coupon/claims.go:87-97 | The loop accepts exactly keys of 1 to 128 visible ASCII characters |
| CatalogBindings.PairedUnicodeEscapes | internal/material/bindings.go:72-104 | The scanner accepts exactly the byte strings whose escapes are complete and whose surrogates are all paired high then low |
| CatalogBindings.ParsesExactlyDocuments | internal/material/bindings.go:19-68 | The token parser accepts exactly arrays of objects with the five string members, each once and in any order, whose bindings are consistent, and returns what the members say |
| CatalogBindings.ParseCatalogBindings | internal/material/bindings.go:16-68 | As written, from bytes: accepts exactly files of at most 64 KiB that are UTF-8, whose surrogate escapes are paired, which the tokenizer reads as such a document with nothing after it and whose bindings are consistent, and returns what the members say |
| CatalogBindings.ParseTokens | internal/material/bindings.go:23-64 | The parser loops as written compute the specified parse |
| CatalogBindings.BindingMap | internal/material/bindings.go:106-119 | A map exists exactly for valid bindings without a repeated scope, and it maps each scope to its media ID |
| Cursors.CursorFits | internal/material/query.go:62-71 | Every cursor EncodeCursor makes has at most 1024 characters, even when every character of city and business is escaped |
| Cursors.CursorRoundTrip | internal/material/query.go:34-71 | A cursor parses back to the ID it was made for in a query of the same owner and scope |
| Cursors.CursorIsCanonical | internal/material/query.go:34-71 | Whatever JSON decoder is used, a cursor leads to an ID only if it is the very text EncodeCursor makes for that ID in this owner's scope, so there is no second spelling; a decoder that reads what was written makes this an equivalence |
| Cursors.CouponListCursor | internal/coupon/catalog.go:73-92 | A list cursor leads to an ID if and only if the context is valid and the cursor, decoded leniently, is the text written for that ID in this context |
| Cursors.CouponListRoundTrip | internal/coupon/catalog.go:77-119 | The cursor a page hands out leads on from the ID it was made for, and has at most 274 characters |
| Cursors.ListCursorRespelled | internal/coupon/catalog.go:79 | No list cursor is the only spelling of itself: with a line end behind it, it is read the same |
| Cursors.ListCursorRepadded | internal/coupon/catalog.go:79 | Unless its bytes fill the last symbol, a list cursor that was handed out has another accepted spelling of the same length |
| Cursors.CouponProductsCursor | internal/coupon/detail.go:59-82 | A product cursor leads to a product if and only if coupon and context are valid and the cursor, decoded leniently, is the text written for that product |
| Cursors.CouponProductsRoundTrip | internal/coupon/detail.go:71-103 | The cursor a product page hands out leads on from its product, and has at most 442 characters |
| Cursors.ProductCursorRespelled | internal/coupon/detail.go:72 | A line end behind a product cursor is ignored |
| Cursors.JsonTextBound | internal/material/query.go:66-70 | JSON escaping of text without control characters grows it at most six times |
| Bytes.DecodeEncode | internal/material/query.go:47-50 | Unpadded URL-safe Base64 decodes to what was encoded, strictly or not |
| Bytes.EncodeDecode | internal/material/query.go:47-50 | Strictly decoded symbols are the one encoding of their bytes |
| Bytes.OneStrictSpelling | internal/material/query.go:47-50 | Decoded strictly and free of line ends, every byte string has exactly one spelling |
| Bytes.SecondSpelling | internal/coupon/catalog.go:79 | Decoded leniently, every byte string that leaves bits of its last symbol unused has a second spelling of the same length, which strict decoding refuses |
| Bytes.DecodesOnlyUtf8 | internal/material/bindings.go:20 | Bytes decode to a text exactly when they are its UTF-8 form |
| NulJoined.SplitJoin | internal/coupon/catalog.go:85-87 | Parts without NUL survive joining and splitting |
| NulJoined.JoinSplit | internal/coupon/catalog.go:85-87 | Any text is the join of the NUL-free parts it splits into |
| Migrations.Database.Run | internal/dbmigrate/runner.go:65-152 | Something is applied only if the ledger is a prefix of the sorted local versions; any stop leaves a prefix; success leaves exactly the local set and reports what was there and what was added; a complete ledger applies nothing; without failures a prefix always succeeds |
| Migrations.Database.Verify | internal/dbmigrate/runner.go:156-191 | Verify accepts exactly a ledger that records all local migrations with their checksums and nothing else |
| Migrations.Database.Compare | internal/dbmigrate/runner.go:107-118 | The comparison passes exactly if every recorded version is known with its checksum |
| Migrations.StaysWhole | internal/dbmigrate/runner.go:126-133 | A missing migration below a recorded one means the ledger is no prefix |
| MaterialsHistory.ShownItemsBelong | apps/client/src/features/promotion/materials-model.ts:34-94 | In every interleaving shown items have distinct IDs, belong to the scope selected now and came from a request of the session in force now |
| MaterialsHistory.LoadingIsPending | apps/client/src/features/promotion/materials-model.ts:34-54 | A loading state always has a pending request whose reply will be used |
| MaterialsHistory.StaleReplies | apps/client/src/features/promotion/materials-model.ts:42-53 | An outdated reply changes what is shown exactly when it is a login refusal of the session in force and something is still shown |
| MaterialsHistory.NothingAfterDispose | apps/client/src/features/promotion/materials-model.ts:95-96 | After dispose nothing observable changes, whatever the user, the session or late replies do |
| MaterialsHistory.StepKeeps | apps/client/src/features/promotion/materials-model.ts:15-96 | Every action, session change and reply keeps the invariant |
| MaterialsScreen.ShownIsWhatWasAccepted | apps/client/src/features/promotion/materials-model.ts:34-94 | In every interleaving the screen shows what the replies accepted since it was last emptied add up to |
| MaterialsScreen.PagesOneBehindTheOther | apps/client/src/features/promotion/materials-model.ts:46 | Without a single read in between that is the accepted pages one behind the other, in order |
| MaterialsScreen.EventShows | apps/client/src/features/promotion/materials-model.ts:34-96 | Every event changes shown cards, cursor and status as it should: an accepted page is appended, a reload replaces, a single read replaces or removes its card, and nothing else touches them but what empties the screen |
| MaterialsScreen.LoadAsks | apps/client/src/features/promotion/materials-model.ts:34-40 | A reload asks for the first page, a continuation for the one behind the cursor, of the selected scope and session; nothing else is asked for |
| MaterialsScreen.RefusedSessionIsSilent | apps/client/src/features/promotion/materials-model.ts:24-32 | After the session in force was refused nothing is asked for until it changes |
| MaterialsScreen.DetailIsShown | apps/client/src/features/promotion/materials-model.ts:75-94 | A single read that still counts is shown with its card or as gone, a denial with its reason and nothing else |
| MaterialsViewModel.Materials.Load | apps/client/src/features/promotion/materials-model.ts:34-40 | load up to the await, as written, has the specified effect on state and counters |
| MaterialsViewModel.Materials.ListReply | apps/client/src/features/promotion/materials-model.ts:41-53 | load from the await on, as written, has the specified effect |
| MaterialsViewModel.Materials.OpenDetail | apps/client/src/features/promotion/materials-model.ts:71-74 | openDetail up to the await, as written |
| MaterialsViewModel.Materials.DetailReply | apps/client/src/features/promotion/materials-model.ts:75-94 | openDetail from the await on, as written |
| MaterialsViewModel.Materials.SetScope | apps/client/src/features/promotion/materials-model.ts:63-70 | setScope as written |
| MaterialsViewModel.Materials.ChangeSession | apps/client/src/features/promotion/materials-model.ts:95 | The session watcher as written |
| MaterialsViewModel.Materials.Dispose | apps/client/src/features/promotion/materials-model.ts:96 | dispose as written |
| OrdersHistory.ShownOrdersMatch | apps/client/src/features/promotion/orders-model.ts:20-76 | In every interleaving shown orders have distinct IDs, match the filter selected now, also after a detail showed an order had changed, and came from a request of the session in force now |
| OrdersHistory.LoadingIsPending | apps/client/src/features/promotion/orders-model.ts:20-41 | A loading state always has a pending request whose reply will be used, and a detail is never awaited while the list reloads |
| OrdersHistory.StaleReplies | apps/client/src/features/promotion/orders-model.ts:31-41 | An outdated reply changes what is shown exactly when it is a login refusal of the session in force and something is still shown |
| OrdersHistory.NothingAfterDispose | apps/client/src/features/promotion/orders-model.ts:77-84 | After dispose nothing observable changes |
| OrdersScreen.ShownIsWhatWasAccepted | apps/client/src/features/promotion/orders-model.ts:20-76 | In every interleaving the screen shows what the replies accepted since it was last emptied add up to |
| OrdersScreen.PagesOneBehindTheOther | apps/client/src/features/promotion/orders-model.ts:33 | Without a single read in between that is the accepted pages one behind the other, in order |
| OrdersScreen.EventShows | apps/client/src/features/promotion/orders-model.ts:20-84 | Every event changes shown orders, cursor and status as it should, a detail outside the filter or a missing order removing its row |
| OrdersScreen.LoadAsks | apps/client/src/features/promotion/orders-model.ts:20-28 | A reload asks for the first page, a continuation for the one behind the cursor, with the selected filter and session |
| OrdersScreen.SessionStartsAnew | apps/client/src/features/promotion/orders-model.ts:77-80 | A new session reads the orders anew without a filter |
| OrdersScreen.RefusedSessionIsSilent | apps/client/src/features/promotion/orders-model.ts:15-19 | After the session in force was refused nothing is asked for until it changes |
| OrdersViewModel.Orders.Load | apps/client/src/features/promotion/orders-model.ts:20-28 | load up to the await, as written |
| OrdersViewModel.Orders.ListReply | apps/client/src/features/promotion/orders-model.ts:29-41 | load from the await on, as written |
| OrdersViewModel.Orders.SetFilter | apps/client/src/features/promotion/orders-model.ts:42-47 | setFilter as written |
| OrdersViewModel.Orders.DetailReply | apps/client/src/features/promotion/orders-model.ts:52-76 | openDetail from the await on, with the filter recheck, as written |
| OrdersViewModel.Orders.ChangeSession | apps/client/src/features/promotion/orders-model.ts:77-80 | The session watcher as written, which reloads when signed in |

## Left out

- LockRotations.BlockIffExchange: it compares calls on different positions, one each, because a call carries the version it expects and of two calls made from one table only the first to commit can succeed; for all other mixtures of operations the condition is the one of LockTheorems.NoExchangeNoCycle.
- Cursors.CouponListCursor: bytes that are no UTF-8 lead nowhere, because the database refuses them as an argument; the source finds that out one call later.
- OrderEvidence.Store.Save: encryption of the payload and the time of receipt; reading evidence back is not modelled.
- HTTP handlers, routing, JSON body decoding, page rendering and the reactivity of the client framework.
- Cryptography, token verification, network fetching, DNS and URL parsing; link validators are arbitrary predicates.
- Commit errors whose outcome the client cannot know: a commit either happened or not, and the caller is told.
- Foreign-key locks: these transactions take them only on rows they hold already or that nobody updates.
- Column length checks that callers enforce before (display names, keys, names of positions).
- Lock timeouts and the deadlock detection of the database; a transaction may simply be aborted at any step.
- In the lock model a statement that locks several rows is a sequence of single lock steps in a given order.
- ConversionExecutor.Cluster.RecoveryCandidates: the order by update time is a given listing, because update times are not modelled; no fairness of recovery follows.
- ConversionExecutor.Cluster.Recover: the unchanged record that accompanies the error for an unusable answer of Lookup.
- The scheme URL and the timestamps of a conversion request, which no transition reads, and the constant channel and source of a Tracking row.
- Wiring checks (a missing database, gateway or adapter), which return an error before any effect.
- MaterialCatalog.List: one snapshot per page and a given capability decision; IDs are the numbers of their UUIDs, and the cursor codec is proved apart.
- Reading the migration directory: the list of migrations is given sorted and without repeated versions, as its reader returns it.
- Page reads of the coupon catalog, which cut a page without refilling; only their cursors are modelled.
- The coupon catalog view model of the client, whose counters nest in the same way as those modelled.
- In the client models an optional member that is present but undefined is not told apart from an absent one.
- Capability policy, attribution, dashboards, preview creation, share events and order listings, which would add smaller copies of what is here.
