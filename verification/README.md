# Rootwell: verified models

Rootwell drives an ACME client (RFC 8555) and a DNS provider from one encrypted, generation-numbered
store. Before anything irreversible is sent its intent is made durable; at most one irreversible request
follows; afterwards there are only reads. These Dafny modules model that behaviour, component by
component, and prove what it is meant to guarantee over every run with crashes, lost replies, delayed
messages and clock trouble.

`dafny verify dfyconfig.toml` checks the whole project.

## What is modelled

| component | modules |
|---|---|
| DNS ownership: retry policy, plan record, provider conversation, protocol | `RetryPolicy`, `DnsRecord`, `DnsTransitions`, `DnsLife`, `DnsWaits`, `CloudflareSession`, `DnsOperation`, `DnsProtocol` |
| Store invariants: reserved slots, event log, closed requests | `StoreReserve`, `ClosedScope`, `ClosedArchive`, `ClosedWalk` |
| ACME orders, validation and certificates: transports, clients, transactions | `AcmeWire`, `Conversation`, `OrderTransport`, `OrderRuns`, `CertificateTransport`, `CertificateRuns`, `AcmeClients`, `OrderTransaction`, `OrderMoves`, `IssuanceTransaction` |
| The daemon's sessions and workers | `Gate`, `RenewalJob` |
| The access file and its recovery code | `AccessEnvelope`, `RecoveryCode` |
| Timestamps, ASCII JSON, bundles, snapshots | `Timestamps`, `AsciiJson`, `Bundle`, `Snapshots` |

Code that changes objects or buffers in place is modelled by classes and loops (`Row`, `Store`, `Manifest`,
`Requests`, `Transport`, `Connector`, `Daemon`, `Record`, `AccessFile`, `Copy`), each proved against a
function on values; the theorems are about runs of those functions.

## What is assumed

- A stamp is a whole number of seconds, 0 standing for the empty text. `Timestamps` proves that comparing
  printed stamps is comparing these numbers, and which texts are stamps at all.
- An instant is a second and whether a fraction follows; every bound it meets is a whole second.
- An address is one constructor for each shape of path the source accepts.
- Sealing, signing and wrapping are symbolic: a box opens with exactly the key and data it was sealed with.
- Key derivation tells two passwords apart exactly when the blocks it starts from differ: the password, or the
  digest of one that does not fit 64 bytes, padded with zeros (RFC 2104 section 2). The digest is any function
  to 32 bytes, collisions included; one lemma names what SHA-256 makes of one password.
- The DNS provider answers reads truthfully, a missing record included; it never reuses an identifier and
  applies each message at most once; nobody else writes this owner's marker.
- Randomness, clocks, permissions, server answers and decisions are inputs, free in every theorem.
- Locks are exclusive. An operation can end between any two of its steps, which stands for a refusal, a
  revoked permission and a crash alike; a replacement of the stored file is made, not made, or made and
  reported as uncertain.

## What the code does not do

Six properties that one might expect are false of the code. The model keeps the code as it is and proves
exactly when each holds.

1. A blocking answer to a maintenance read moves the next read seven days on, if it is saved. In the last
   week of 2100 that is no longer an acceptable date, so the deferral is not saved, the record keeps its
   intent, and the next read may come one day later. A crash before the save has the same effect
   (`DnsTransitions.FailureKeepsAccepted`, `DnsLife.BlocksAreHeededExactly`, `DnsLife.BlockForgotten`,
   `DnsLife.ForgottenReadsWaitADay`).
2. Deleting a saved pair dates its tombstone by the clock without looking at the close time of the request
   that saved it, and the image is installed without being opened again. A clock behind that close time, or
   behind the close time of a closed renewal of the pair, leaves a store that no longer opens
   (`ClosedArchive.DeleteKeepsAccepted`, `ClosedArchive.DeletionBehindTheClock`).
3. Importing a certificate whose saved pair was deleted is granted, and the installed image is refused when
   it is next opened, because the tombstone says the certificate is gone
   (`ClosedArchive.ImportKeepsAccepted`, `ClosedArchive.ImportOfDeleted`).
4. The first region of a renewal tick does not look again at the job it is about to relabel, so a job
   paused just before can stay labelled waiting although it is cancelled and never acts
   (`RenewalJob.OnlyEnteringRelabels`, `RenewalJob.StoppedButWaiting`). What matters, that no action starts
   after cancellation, holds regardless (`RenewalJob.EveryRunIsOrderly`).
5. More than one password may open the access file. Key derivation starts from HMAC-SHA-256, which replaces a
   key of more than 64 bytes by its digest and pads every key with zeros. So a password of fewer than 64
   bytes and the same with a zero byte after it are one, and so are a password of more than 64 bytes and its
   digest: "1-64565-" followed by 57 times "a" has the digest
   016c255120292bcd91083c4e407eef9ea5cf85741463393ad1a72c024538774d, which is UTF-8 text of 27 characters. A
   change from one to the other is accepted and leaves the old password opening the file
   (`AccessEnvelope.OnlyTheLatestPasswordOpens`, `AccessEnvelope.SameKeyMeansSamePassword`,
   `AccessEnvelope.EitherPasswordOpens`, `AccessEnvelope.ZeroByteIsIgnored`,
   `AccessEnvelope.LongPasswordHasATwin`).
6. The saved address of an order can be overwritten. When the replacement that saves it is made but reported
   as uncertain, the operation fails and still holds the image without the address; if the answer asked for
   a wait, that image is saved once more together with the wait. The request is then stuck: it cannot be
   resumed, repeated or closed (`OrderTransaction.AddressIsKept`, `OrderMoves.AddressLostToAWait`,
   `OrderTransaction.LostAddressIsFinal`). Where every such replacement is known to be made or not, an
   address goes only with its request (`OrderTransaction.ConfirmedAddressIsKept`), and what matters for
   the provider, at most one creating request for an intent, holds regardless
   (`OrderTransaction.EveryIntentIsSafe`).

## Model

| member | source | states |
|---|---|---|
| RetryPolicy.AttemptsAreBoundedAndSpaced | internal/providerretry/policy.go:46-112 | Over any list of attempts and answers, under any clock: at most six attempts are granted, the count on record is exact, and each starts no earlier than the exponential wait after the one before. |
| RetryPolicy.Apply | internal/providerretry/policy.go:88-112 | A provider's answer never shortens a wait, is honoured exactly or not at all, and leaves a valid policy. |
| DnsRecord.RecordsTellTheirStory | internal/inventorystore/dns_operation.go:13-79 | An accepted record names a provider record exactly from creation on, has attempts at making and removing it exactly in the states they belong to, each dated in order, none after the outcome on record; as history it is new, borrowed or gone. |
| DnsRecord.ReadsFollowAttempts | internal/inventorystore/dns_maintenance.go:86-113 | In an accepted record recovery follows six ordinary attempts and maintenance the exhaustion of both, with their distances. |
| DnsTransitions.BeginKeepsAccepted | internal/inventorystore/dns_plan.go:433-553 | Every granted start leaves a record the store accepts, and the lease minted fits that record. |
| DnsTransitions.FailureKeepsAccepted | internal/inventorystore/dns_operation.go:192-229 | A failed call changes nothing but its outcome's stamp and the wait of its own kind, which becomes what the provider asked for; the record is then acceptable if and only if it is stamped before 2101 and a blocking answer to a maintenance read fits the calendar. |
| DnsTransitions.SuccessKeepsAccepted | internal/inventorystore/dns_operation.go:230-276 | What an observation leaves is acceptable if and only if it is stamped before 2101, for making, removal, recovery and maintenance alike. |
| DnsTransitions.BeginHalfKeepsValid | internal/inventorystore/dns_maintenance.go:115-140 | A maintenance or policy start keeps the conditions on the half of the record it draws on. |
| DnsTransitions.FailHalfKeepsValid | internal/inventorystore/dns_operation.go:192-229 | The wait of the attempt that failed becomes what the provider asked for, never shorter than it was, or is blocked when that cannot be honoured; the half stays valid exactly when a maintenance read's week ends before 2101. |
| DnsTransitions.SettleHalfKeepsValid | internal/inventorystore/dns_maintenance.go:86-113 | A half that is settled carries a valid receipt of its last maintenance read. |
| DnsLife.MutationsAreMintedOnce | internal/inventorystore/dns_plan.go:433-553 | Over any life of a record the authority to create is minted at most once and the authority to delete at most once, each only with its intent on record. |
| DnsLife.StatesOnlyAdvance | internal/inventorystore/dns_operation.go:95-276 | The life cycle only moves forward; borrowed and deleted are final. |
| DnsLife.MaintenanceReadsKeepTheirDistance | internal/inventorystore/dns_maintenance.go:39-155 | Maintenance reads start a day after the last attempt of either policy, a week after it when it is on record as blocked, are a day apart, a week apart after an answer recorded as blocked, and number at most 65535. |
| DnsLife.BlocksAreHeededExactly | internal/inventorystore/dns_maintenance.go:115-155 | A blocking answer to a maintenance read keeps every later read of that half a week from its start, in every continuation, if and only if it is saved (stamped before 2101, the week fitting the calendar) or no further read is possible. |
| DnsLife.HeededFromThenOn | internal/inventorystore/dns_maintenance.go:115-155 | A half that keeps to a bound on its next read keeps to it whatever starts, answers, observations and crashes follow. |
| DnsLife.ForgottenReadsWaitADay | internal/inventorystore/dns_maintenance.go:115-140 | A read that ended with nothing on record, by a refused save or a crash, is followed by the next one a day after its start. |
| DnsLife.BlockForgotten | internal/inventorystore/dns_maintenance.go:142-155 | A life in which a blocking answer in the last week of 2100 is not saved, the record stays as it was, and the next read is granted a day on. |
| DnsLife.LivesStayAccepted | internal/inventorystore/dns_operation.go:13-79 | Under any clocks, answers and crashes the record on file is acceptable and a lease still held fits it. |
| DnsLife.FailuresAreSaved | internal/inventorystore/dns_operation.go:192-229 | In any life, exactly which failed calls have their outcome saved. |
| DnsLife.ObservationsAreSaved | internal/inventorystore/dns_operation.go:256-276 | In any life, exactly which observations are saved. |
| DnsWaits.AttemptsAreGrantedExactly | internal/inventorystore/dns_plan.go:433-553 | An attempt is granted if and only if its mode suits the state, the clock fits and the half it draws on is due; exactly what it leaves on record, and whether it may write. |
| DnsWaits.LeasesAreHonouredExactly | internal/inventorystore/dns_operation.go:127-169 | A lease may be used if and only if its half is unsettled and stands where the lease was minted. |
| DnsWaits.FailuresLeaveTheirWait | internal/inventorystore/dns_operation.go:192-229 | In any life, a failed call that can be recorded leaves everything but its outcome's stamp and the wait of its kind, and that wait is what the provider asked for. |
| DnsWaits.ProviderWaitsAreHeeded | internal/inventorystore/dns_operation.go:203-223 | However a life goes on after such a failure: no later attempt of its kind on that half is granted before the wait on record, none before the second the provider asked for, and after a refusal none at all, or no maintenance read within a week. |
| DnsOperation.Row.Begin | internal/inventorystore/dns_plan.go:433-553 | Changes the record in place into the intent that DnsTransitions.Begin names, or not at all. |
| DnsOperation.Row.Settle | internal/inventorystore/dns_operation.go:230-276 | Changes the record in place as an observation says; one that does not fit the lease is refused. |
| DnsOperation.Store.Execute | internal/inventorystore/dns_operation.go:95-276 | A lease is used once: nothing is sent for a used one, and what is to be saved is the outcome of exactly one conversation; the rows from CallsAreMadeExactly on say what that outcome is. |
| DnsOperation.Store.Run | internal/instanceaccess/dns_operation_linux.go:29-117 | Nothing is sent before the intent is durable; the stored record is then the one its operation accounts for, whatever becomes of either save. |
| DnsOperation.HistoriesAreLives | internal/instanceaccess/dns_operation_linux.go:29-117 | The stored record after any history of operations is that of a life as described by DnsLife, and is always acceptable. |
| DnsOperation.CallsAreMadeExactly | internal/inventorystore/dns_operation.go:127-190 | For an attempt that was granted something is sent if and only if its image and configuration are the stored ones, permission holds and so do both clock readings, for a new record before its order's deadline. |
| DnsOperation.StoredStateFollowsEvidence | internal/inventorystore/dns_operation.go:230-276 | Whatever operation is run: a record is stored as created under an identifier only if the provider showed exactly this owner's record under it, as borrowed only if another's stood in its place, as deleted only if its own was removed by name or found missing. |
| DnsOperation.EvidenceIsStored | internal/inventorystore/dns_operation.go:230-276 | Where nothing hinders the operation it is stored so whenever the provider showed it. |
| DnsOperation.FailedCallsKeepTheWait | internal/inventorystore/dns_operation.go:192-229 | Where nothing hinders an operation whose conversation failed, the stored record is its intent with only the wait of this kind of attempt changed, to what the provider's last reply asked for. |
| DnsOperation.LateOutcomesAreNotSaved | internal/inventorystore/dns_operation.go:186-276 | An outcome that comes back without permission or at a clock reading at which no call may be made is not saved; an observation needs both once more at the end. |
| CloudflareSession.ConversationsAreBounded | internal/acmestaging/cloudflare.go:158-289 | Any conversation sends one of a fixed handful of sequences of at most three calls, with at most one write, which comes last; a read-only one writes nothing. |
| CloudflareSession.WritesFollowTheirEvidence | internal/acmestaging/cloudflare.go:329-422 | A creation is sent if and only if the zone was as reviewed and the complete list empty, a deletion if and only if the reply just before showed exactly this owner's record, name, value, marker and all, under the saved identifier; both only with the intent confirmed durable. |
| CloudflareSession.ResultsFollowTheirEvidence | internal/acmestaging/cloudflare.go:294-422 | Created under an identifier if and only if exactly this owner's record was shown under it, borrowed if and only if exactly one unproxied record of another's was, deleted if and only if it was removed by name or found missing twice; a failure carries the wait its last reply asked for, and no other. |
| CloudflareSession.AdvanceStaysOnPath | internal/acmestaging/cloudflare.go:329-422 | No step of a conversation is ever refused for the three-call budget. |
| CloudflareSession.Connector.Fetch | internal/acmestaging/cloudflare.go:158-193 | One call: nothing is sent without permission or beyond the budget. |
| CloudflareSession.Connector.Record | internal/acmestaging/cloudflare.go:329-384 | The connector's result is what its replies showed, its requests are those the evidence justifies, and both are the conversation's. |
| CloudflareSession.Connector.Cleanup | internal/acmestaging/cloudflare.go:385-422 | The removal half of the connector, from the zone check on, as one part of that conversation. |
| DnsProtocol.RunKeepsInv | internal/instanceaccess/dns_operation_linux.go:29-117 | The protocol's invariant over every interleaving of process, provider, delayed messages, crashes and other parties. |
| DnsProtocol.MarkerIsAccountedFor | internal/inventorystore/dns_operation.go:95-276 | A provider record with this owner's marker exists only while the durable state is creating, created or deleting; once it is deleted none exists and none is in flight. |
| DnsProtocol.DeletedIsForever | internal/inventorystore/dns_operation.go:230-239 | However a run goes on after deleted, no marked record appears and nothing is sent. |
| DnsProtocol.WritesAreSentOnce | internal/acmestaging/cloudflare.go:329-422 | Over a whole run at most one creation and one deletion leave the process; a borrowed record is never deleted. |
| DnsProtocol.ForeignRecordsAreUntouched | internal/acmestaging/cloudflare.go:322-363 | No step of the system alters a record this owner did not make. |
| DnsProtocol.MadeAndRemoved | internal/instanceaccess/dns_operation_linux.go:29-117 | For any reviewed place a run makes the record, stores it as created, removes it and stores that, with one creation and one deletion sent. |
| StoreReserve.Manifest.AddEvent | internal/inventorystore/history.go:38-99 | Appends one event exactly when every outstanding reserve still fits after it. |
| StoreReserve.Manifest.Save | internal/inventorystore/account_registration.go:104-141 | A writer installs its change with one generation and one event, or leaves the image as it was. |
| StoreReserve.EveryStoreIsSound | internal/inventorystore/history.go:38-99 | In every reachable store the outstanding reserve fits the log and the generation counter, a pending issuance keeps a record slot, and the log numbers every generation once. |
| StoreReserve.DischargeIsNeverRefused | internal/inventorystore/account_registration.go:173-199 | Recording how a registration, order, validation, issuance, DNS attempt or timing read ended is never refused for lack of room, whatever came between, and releases its reserve. |
| StoreReserve.RetriesHaveRoom | internal/inventorystore/dns_plan.go:531-540 | A further attempt that the policy grants is never refused for lack of room. |
| StoreReserve.OutcomesFreeASlot | internal/inventorystore/dns_plan.go:234-258 | Every outcome of a lease lowers the plan's reserve by at least one. |
| StoreReserve.PlanReserveUpdates | internal/inventorystore/dns_plan.go:234-258 | The plan's reserve changes by exactly what its one changed record does. |
| StoreReserve.ChangeKeepsPhased | internal/inventorystore/orders.go:169-229 | Every writer keeps the phases of a request apart, so their reserves never add up twice. |
| StoreReserve.CommitKeepsLog | internal/inventorystore/ca_operation_wait.go:54-85 | Every save, a provider wait included, and every archiving keeps the event numbers contiguous. |
| StoreReserve.RequestsMoveStepByStep | internal/inventorystore/orders.go:169-229 | Every write moves each part of a request one step along its life or not at all, and its own part only; an order needs a registered account, an issuance verified names, and closing a settled plan. |
| StoreReserve.OpenHistory | internal/inventorystore/history.go:135-173 | Joins the pages and accepts exactly a contiguous log that ends at the current generation. |
| StoreReserve.EveryLogIsReadable | internal/inventorystore/history_archive.go:50-95 | The log of every reachable store reads back whole, one event a generation. |
| ClosedScope.UnknownOrdersStayOpen | internal/inventorystore/closed_requests.go:73-75 | A request whose order has no saved address or terms cannot be closed. |
| ClosedScope.EligibilityIsExact | internal/inventorystore/closed_requests.go:53-97 | A request is complete if and only if its certificate was saved, expired if and only if it was not and the order's or the issuance's deadline has come, and either only with nothing owed, terms known and a clock behind nothing on record. |
| ClosedScope.PartsAgree | internal/inventorystore/issuance.go:84-139 | The parts of an accepted scope are of one account, order and set of names, under one key. |
| ClosedScope.PartsAreInOrder | internal/inventorystore/issuance.go:84-139 | They are dated in order, all within the order's and the issuance's deadlines, the issuance only after every name was verified. |
| ClosedScope.CertificatesAreWhereTheyBelong | internal/inventorystore/issuance.go:84-139 | A saved certificate is among the records as it was saved, under its request's key; a deleted one is gone, and so is the request. |
| ClosedScope.ClosableScopeIsHistory | internal/inventorystore/closed_requests.go:53-97 | A scope whose plan owes nothing reads back as history, as closable then as it was. |
| ClosedScope.NoReserveMeansHistory | internal/inventorystore/dns_operation.go:13-79 | A plan that owes nothing is acceptable as history, record by record. |
| ClosedScope.TombstoneKeepsClosed | internal/inventorystore/completion.go:328-355 | A closed item survives the deletion of a certificate if and only if it did not save it or the clock is not behind its close time. |
| ClosedArchive.CloseKeepsAccepted | internal/inventorystore/closed_requests.go:330-370 | Closing leaves an accepted store whose chain grew by exactly the closed request, which was over, the recorded reason saying with or without its certificate. |
| ClosedArchive.ClosingIsGrantedExactly | internal/inventorystore/closed_requests.go:241-263 | A request is closed if and only if its plan owes nothing, its terms are known, the clock is behind nothing on record, there is room, and it saved a certificate or its deadline has come; nothing else changes. |
| ClosedArchive.NothingLiveIsClosed | internal/inventorystore/closed_requests.go:330-370 | Over every history that leaves the store readable, no request without its certificate stands closed before its deadline, and the reason on record is right. |
| ClosedArchive.AcceptedRequestsAreInOrder | internal/inventorystore/closed_requests.go:165-239 | In an accepted store closed requests are numbered, dated and named apart, no certificate was saved twice, and every renewal, open or closed, renews one an earlier request of the same account and names saved, under another key. |
| ClosedArchive.ArchivingIsGrantedExactly | internal/inventorystore/request_archive.go:58-104 | The active page is archived if and only if it holds sixteen requests, fewer than four pages are archived and the clock is behind no closing. |
| ClosedArchive.DeletionIsGrantedExactly | internal/inventorystore/manifest.go:279-332 | A pair is deleted if and only if it is there, the open request does not renew it and the clock is not before it was saved; exactly it goes, and exactly the scopes that saved it are buried. |
| ClosedArchive.ImportsAreExact | internal/inventorystore/manifest.go:110-157 | An import adds exactly the new certificates it brings; a note changes no record. |
| ClosedArchive.ArchiveKeepsAccepted | internal/inventorystore/request_archive.go:58-104 | Archiving leaves an accepted store with the same chain in the same order. |
| ClosedArchive.DeleteKeepsAccepted | internal/inventorystore/manifest.go:279-332 | Deleting a saved pair leaves an accepted store if and only if the clock has caught up with the closing of the request that saved it and of every renewal of it. |
| ClosedArchive.DeletionBehindTheClock | internal/inventorystore/closed_requests.go:144-146 | A store and a clock for which a granted deletion installs an image that no longer opens. |
| ClosedArchive.TombstoneKeepsBound | internal/inventorystore/renewal.go:54-66 | A renewal's binding survives the deletion of its source if and only if the deletion is not dated before the renewal's own close. |
| ClosedArchive.ImportKeepsAccepted | internal/inventorystore/manifest.go:110-157 | An import leaves an accepted store if and only if it does not bring back a certificate whose saved pair was deleted. |
| ClosedArchive.ImportOfDeleted | internal/inventorystore/manifest.go:110-157 | An accepted store, its saved pair deleted in good time, for which a granted import installs an image that no longer opens. |
| ClosedArchive.ResealKeepsAccepted | internal/inventorystore/manifest.go:334-361 | Resealing a record for an owner or location note, which is installed without being opened again, always leaves an accepted store. |
| ClosedArchive.HistoriesStayAccepted | internal/inventorystore/closed_requests.go:165-239 | Over any history of closing, archiving, deleting, importing, notes and other writes the store stays accepted if and only if every granted deletion found a clock that had caught up and no granted import brought back a buried certificate. |
| ClosedWalk.Requests.Seal | internal/inventorystore/closed_requests.go:293-325 | The page walk is a point update of the flattened list, or an append to the active page. |
| ClosedWalk.PageUpdateIsPointUpdate | internal/inventorystore/closed_requests.go:309-324 | Updating an item on its page is updating it in the flattened list. |
| ClosedWalk.Requests.DeleteCompletion | internal/inventorystore/closed_requests.go:373-404 | Exactly the items that saved the certificate are replaced by their tombstones. |
| ClosedWalk.Authenticate | internal/inventorystore/closed_requests.go:165-239 | The loop with its seen sets and anchors accepts exactly the stores whose closed requests form an accepted chain. |
| ClosedWalk.AdmittedItemsAreLinked | internal/inventorystore/closed_requests.go:198-228 | What the loop admits next is exactly what continues the chain. |
| ClosedWalk.CheckPages | internal/inventorystore/closed_requests.go:166-178 | Accepts exactly pages of the right sizes and count. |
| OrderTransport.Transport.RoundTrip | internal/acmestaging/order.go:136-268 | Whatever the client asks and the server answers, the transport takes exactly one step of its specification, and what it sends is signed by the account for its own address with the nonce it spends, asking for no more than it may. |
| OrderTransport.StepShape | internal/acmestaging/order.go:136-268 | A round trip refuses for good without sending, or sends exactly one admissible request, carrying exactly what it should, and what may follow it. |
| OrderTransport.RequestsAreSentExactly | internal/acmestaging/order.go:136-186 | A request is sent if and only if the transport is open, permission holds, the limit leaves room and it asks for something this stage has to ask for, as it must be asked. |
| OrderTransport.AnswersAreTakenExactly | internal/acmestaging/order.go:184-268 | An answer is acceptable if and only if it came while permission held, its headers fit, a new order's address was made durable first, and its body says what was asked. |
| OrderTransport.AnswersAreReadExactly | internal/acmestaging/order.go:324-358 | An order is read if and only if it is for exactly the names asked for, at its own address and undecided; a challenge if and only if it is the very one lent. |
| AcmeWire.PreparationsAreReadExactly | internal/acmestaging/order.go:361-410 | Preparation reads an authorization if and only if it is valid, or pending with one untouched DNS challenge, and nothing is in error. |
| AcmeWire.AuthorizationsAreReadExactly | internal/acmestaging/validation.go:134-180 | Validating and finalizing read one if and only if its status is known and its DNS challenge well formed. |
| OrderRuns.EveryConversationIsLegal | internal/acmestaging/order.go:122-268 | Every conversation with any client, server and interruption follows the rules. |
| OrderRuns.ConversationsAreSafe | internal/acmestaging/order.go:122-268 | At most 19 requests, 35 when validating; no address posted to twice; every nonce fetched since the previous post, and the one signed; a creation asks for exactly the names, a challenge is taken up only if it was lent, every other post asks for nothing; a new order's address durable before anything of its answer is read. |
| OrderRuns.SilenceAfterRefusal | internal/acmestaging/order.go:139-150 | Nothing is sent, fetched or saved after the first refusal. |
| OrderRuns.LimitNeverStopsAnHonestClient | internal/acmestaging/order.go:144-150 | With at most eight names the limit never refuses an admissible request; the exact cost is one directory read and a nonce and a post for every address. |
| Conversation.HeldWasFetched | internal/acmestaging/order.go:151-178 | A nonce in hand was fetched since the last post, by the latest fetch. |
| Conversation.PromisesAreKept | internal/acmestaging/order.go:151-178 | What every event of a lawful log may rely on in what went before it, and what every request in it carries. |
| AcmeClients.DnsOrder | internal/acmestaging/order.go:71-119 | Instructions if and only if every requested name has one authorization usable when it was looked at, each name's slot holding its own record, due by the earliest deadline. |
| AcmeClients.PreparationsAreExact | internal/acmestaging/order.go:88-119 | What an authorization has to show, and what is published for its name: nothing once valid, while pending the digest of its one DNS challenge's token. |
| AcmeClients.EveryNameIsAnswered | internal/acmestaging/order.go:72-87 | By counting, distinct authorizations for as many names leave no slot empty. |
| AcmeClients.DeadlineIsEarliest | internal/acmestaging/order.go:110-114 | The deadline is the earliest of the order's and every authorization's. |
| AcmeClients.ValidationState | internal/acmeorder/validation.go:15-46 | Failed, waiting or verified, each if and only if the order's and the authorizations' statuses call for it. |
| AcmeClients.DnsValidation | internal/acmestaging/validation.go:58-112 | A verdict if and only if the set is complete and consistent, the statuses call for one, the deadline is ahead and, for a waiting verdict that is no refresh, every pending challenge is accepted; challenge authority only for such a waiting verdict, for exactly the pending authorizations, their challenges taken up in order until one is not accepted. |
| AcmeClients.AcceptAll | internal/acmestaging/validation.go:100-107 | The pending challenges are taken up in order until one is not accepted; it succeeds if and only if all are. |
| AcmeClients.DestinationsBelongToPending | internal/acmestaging/validation.go:77-92 | Authority is lent for exactly the challenges of pending authorizations, each with its token, no more than names, and exactly those of them nobody has taken up are to be accepted. |
| OrderTransaction.Store.Open | internal/instanceaccess/acme_order_linux.go:64-96 | Commits the intent, or admits a resume of the saved order, as one step of the system; says whether the operation may go on. |
| OrderTransaction.Store.Exchange | internal/instanceaccess/acme_order_linux.go:97-115 | One round trip as one step of the system, with the checkpoint granted at most once. |
| OrderTransaction.Store.Finish | internal/instanceaccess/acme_order_linux.go:125-147 | The operation's last write as one step of the system: the instructions once the address is checkpointed, or after a failure the image held, with the provider's wait; otherwise the stored order stays. |
| OrderTransaction.Store.RunOrder | internal/instanceaccess/acme_order_linux.go:45-151 | The whole operation, the wait saved after a failure included, is its list of steps under one lock. |
| OrderTransaction.StepSaves | internal/inventorystore/orders.go:193-205 | An address is saved exactly when the transport accepts one and the checkpoint succeeds. |
| OrderTransaction.EveryIntentIsSafe | internal/instanceaccess/acme_order_linux.go:45-151 | Over every history of operations, crashes, uncertain saves and waits saved after a failure, each intent sends at most one creating request, its address is durable before the answer is read, and every other order request goes to that address. |
| OrderTransaction.LostAddressIsFinal | internal/inventorystore/closed_requests.go:73-75 | An intent whose address was lost is never resumed, repeated or closed. |
| OrderTransaction.AddressIsKept | internal/instanceaccess/acme_order_linux.go:97-127 | After any history, the next step keeps the stored address if and only if it is neither a granted close nor a wait saved by an operation whose checkpoint was not confirmed; such a wait puts back the intent without an address. |
| OrderMoves.OrdersMoveStepByStep | internal/inventorystore/orders.go:169-229 | The stored state changes exactly where a step takes it, and exactly which steps leave an operation running. |
| OrderTransaction.ConfirmedAddressIsKept | internal/instanceaccess/acme_order_linux.go:97-115 | Over every history in which no checkpoint's outcome was uncertain, a stored address goes only when its request is closed. |
| OrderMoves.AddressLostToAWait | internal/instanceaccess/provider_wait_linux.go:56-85 | A history without a close in which the wait saved after an uncertain checkpoint overwrites the stored address for good. |
| CertificateTransport.Transport.RoundTrip | internal/acmestaging/certificate.go:159-276 | Exactly one step of its specification, whatever is asked and answered; what it sends is signed by the account for its own address with the nonce it spends, and only finalize carries anything, which is the saved request. |
| CertificateTransport.Transport.Accept | internal/acmestaging/certificate.go:278-329 | What an accepted order or certificate changes in the transport. |
| CertificateTransport.StepShape | internal/acmestaging/certificate.go:159-276 | A round trip refuses for good without sending, or sends exactly one admissible request carrying exactly what it should; none after a processing answer. |
| CertificateTransport.RequestsAreSentExactly | internal/acmestaging/certificate.go:159-208 | A request is sent if and only if the transport is open, permission holds, the deadline is ahead, the limit leaves room and it asks for something this stage has to ask for, as it must be asked. |
| CertificateTransport.AnswersAreTakenExactly | internal/acmestaging/certificate.go:204-276 | An answer is acceptable if and only if it came while permission held, its headers fit and its body says what was asked. |
| CertificateTransport.AnswersAreReadExactly | internal/acmestaging/certificate.go:278-338 | An order is read if and only if it is for exactly the saved names at its own address and in a status this stage may find; a certificate if and only if it is one to five different ones; exactly what each leaves. |
| CertificateRuns.OperationsAreSafe | internal/acmestaging/certificate.go:86-139 | At most 23 requests, every post signed by the account for its own address with the nonce it spends; finalize at most once, never on a refresh, only with authority, and for exactly the saved request; nothing after a processing answer; authority only if every name was seen valid in exactly one authorization; the deadline only comes closer. |
| CertificateRuns.AuthorizedSawEveryName | internal/acmestaging/certificate.go:100-120 | By the pigeonhole principle, a finished loop saw every requested name exactly once. |
| CertificateRuns.AuthorityIsGivenExactly | internal/acmestaging/certificate.go:86-124 | Authority is given if and only if the loop is through, as many names were seen as requested, the order is ready (valid on a refresh), the deadline is ahead and it is still permitted; and exactly which authorization the loop goes past. |
| CertificateRuns.FetchedWithAuthority | internal/acmestaging/certificate.go:120-139 | Whoever holds a fetched certificate had been given authority for it. |
| CertificateRuns.SilenceAfterRefusal | internal/acmestaging/certificate.go:159-169 | The first refusal is the last word. |
| CertificateRuns.LimitNeverStopsAnHonestClient | internal/acmestaging/certificate.go:159-169 | The honest schedule of 7 + 2n requests always fits. |
| IssuanceTransaction.EveryIssuanceIsFinalizedOnce | internal/instanceaccess/acme_certificate_linux.go:28-123 | Over every history of operations, crashes and uncertain saves an issuance is finalized at most once. |
| IssuanceTransaction.EveryCertificateWasDelivered | internal/instanceaccess/acme_certificate_linux.go:28-123 | Over every history, an issued certificate was asked for under authority, answered and read in a conversation of that issuance. |
| IssuanceTransaction.OnlyFetchedChainsAreIssued | internal/instanceaccess/acme_certificate_linux.go:95-117 | A store becomes issued only by saving the very chain its conversation fetched, once it passed verification. |
| IssuanceTransaction.PublicationsAreExact | internal/instanceaccess/acme_certificate_linux.go:79-117 | A certificate is published if and only if the conversation fetched that very chain, it passed verification and every clock reading lies before the deadline; a status only if the conversation showed it; otherwise nothing changes. |
| IssuanceTransaction.OnlyTheCommittingOperationFinalizes | internal/inventorystore/issuance.go:222-262 | The lease to finalize exists only in the operation that made the intent durable. |
| IssuanceTransaction.LeasesAreLentExactly | internal/inventorystore/issuance.go:222-308 | An issuance begins, and a lease is lent, if and only if the clock is a time within both deadlines and behind nothing on record; the conversation is held to the closer deadline. |
| IssuanceTransaction.DeadlineOnlyComesCloser | internal/inventorystore/issuance.go:331-361 | Within one issuance the deadline never moves away. |
| IssuanceTransaction.Store.Publish | internal/instanceaccess/acme_certificate_linux.go:79-117 | Publishes exactly what the conversation showed, a fetched and verified chain or the order's status, under the deadline it ended with, or nothing. |
| IssuanceTransaction.Store.RunCertificate | internal/instanceaccess/acme_certificate_linux.go:28-123 | The whole operation is its list of steps under one lock. |
| Timestamps.TextOrderIsTimeOrder | internal/acmeorder/model.go:59-62 | Comparing printed timestamps is comparing instants, both ways. |
| Timestamps.TimeAcceptsExactlyPrintings | internal/acmeorder/model.go:59-62 | A text is accepted if and only if it is the printing of an instant of the years 2020 to 9999. |
| Timestamps.EverySecondHasAText | internal/acmeorder/model.go:59-62 | Every second from 2020 on has a calendar reading and a text. |
| Timestamps.PrintParsesBack | internal/acmeorder/model.go:59-62 | Parsing a printed instant gives it back. |
| AsciiJson.Asciify | internal/inspectreport/report.go:173-203 | The consuming loop computes the rewriting. |
| AsciiJson.MeaningIsKept | internal/inspectreport/report.go:173-214 | Unescaping the output gives the same code points as unescaping the input, surrogate pairs included. |
| AsciiJson.OutputIsAscii | internal/inspectreport/report.go:173-214 | Every output byte is below 0x7f. |
| AsciiJson.EscapesReadBack | internal/inspectreport/report.go:192-214 | The escapes of a code point read back as it, one unit or a surrogate pair. |
| AsciiJson.DecodeUndoesEncode | internal/inspectreport/report.go:187-190 | Every code point above ASCII is decoded from its own encoding, whatever follows. |
| AsciiJson.LowFollowsIsKept | internal/inspectreport/report.go:173-214 | Whether a lone high surrogate is followed by a low one is the same before and after. |
| RenewalJob.EveryRunIsOrderly | cmd/rootwelld/renewal_job.go:144-290 | For any decisions, pauses and wall clocks: at most 160 actions and 12 of each polled kind, starts a monotonic minute apart and five after a saved step of the certificate authority, always below the cycle limit, none after cancellation. |
| RenewalJob.SessionsAreCheckedExactly | cmd/rootwelld/renewal_job.go:69-83 | Wherever the session is looked at, a tick goes on if and only if the job is active, uncancelled and its session holds, past the first look within the tick's own time; an active job that fails but for the time is paused, any other untouched. |
| RenewalJob.TicksGoOnExactly | cmd/rootwelld/renewal_job.go:150-165 | A tick goes on if and only if the limits are not reached and both clocks let it; otherwise exactly what it leaves of the job. |
| RenewalJob.DecisionsAreTakenExactly | cmd/rootwelld/renewal_job.go:190-237 | An action is carried out if and only if it was decided upon for a live job within its cycle, its kind read fewer than twelve times; otherwise the job completes, waits or is paused as decided. |
| RenewalJob.OutcomesAreTakenExactly | cmd/rootwelld/renewal_job.go:273-290 | An outcome is taken over if and only if the job is live and the store moved on by at most three generations within the cycle, and with which spacing by either clock. |
| RenewalJob.BusyTicksAreDeferred | cmd/rootwelld/renewal_job.go:315-322 | A tick that finds a slot taken puts an active job off by at least a minute, and nothing else. |
| RenewalJob.Record.Tick | cmd/rootwelld/renewal_job.go:144-290 | A tick, its regions one after the other with pauses and the passing of time between them, is a run of the worker that plays exactly the script it was given, as far as it goes; EveryRunIsOrderly holds of it. A permission lost to the session pauses the job, one lost to the tick's own timeout only ends the tick. |
| RenewalJob.OnlyEnteringRelabels | cmd/rootwelld/renewal_job.go:150-163 | A cancelled job is labelled active again if and only if a tick's first region finds its next start still ahead. |
| RenewalJob.StoppedButWaiting | cmd/rootwelld/renewal_job.go:150-163 | A run after which a stopped job is still labelled waiting. |
| RenewalJob.Record.PauseLocked | cmd/rootwelld/renewal_job.go:61-67 | Changes the job in place as the pause step does: cancelled, paused and without a next start, unless it was complete. |
| RenewalJob.Record.CheckSession | cmd/rootwelld/renewal_job.go:69-83 | Says whether the job may act, and changes it in place as that region does: paused exactly if it was active and may not. |
| RenewalJob.Record.CheckPermit | cmd/rootwelld/renewal_job.go:171-180 | Within a tick: the job is paused exactly if it was active and its session no longer permits it, and the tick may go on only if its own time is not over either. |
| RenewalJob.Record.Enter | cmd/rootwelld/renewal_job.go:150-165 | Changes the job in place as the first region does: paused at a limit, waiting when its spaced next start is ahead, and otherwise told to go on. |
| RenewalJob.Record.KeepSpacing | cmd/rootwelld/renewal_job.go:301-307 | Moves the next start in place by exactly what is left of the monotonic minute after the last one. |
| RenewalJob.Record.Defer | cmd/rootwelld/renewal_job.go:315-322 | Changes an active job in place to waiting, its next start at least a minute on and never earlier than it was; leaves any other as it is. |
| RenewalJob.Record.Decide | cmd/rootwelld/renewal_job.go:190-237 | Changes the job in place as the decision region does and yields the action to carry out: none beyond the cycle limit or a poll limit. |
| RenewalJob.Record.StartAction | cmd/rootwelld/renewal_job.go:248-264 | Counts and stamps the action in place for an active, uncancelled job, and starts nothing otherwise. |
| RenewalJob.Record.SaveAction | cmd/rootwelld/renewal_job.go:273-290 | Takes an outcome over in place, with the spacing its action asks for, or pauses the job when its generations do not fit. |
| Gate.EveryRunIsSound | cmd/rootwelld/gate.go:429-505 | Over every interleaving: at most 32 sessions, at most one unfinished worker, and a worker that may act belongs to a stored ready session of its revision and expiry. |
| Gate.SessionsLastExactly | cmd/rootwelld/gate.go:380-505 | A session is there after a step exactly if it was and the step does not take it, unchanged, or the step opened it, for fifteen minutes while setting up and twelve hours otherwise; exactly which steps take one. |
| Gate.WorkersLastExactly | cmd/rootwelld/timing_watch.go:63-123 | A worker starts, is cancelled, completes and finishes exactly when a step says so, and is otherwise untouched. |
| Gate.WorkersAreNeverOverwritten | cmd/rootwelld/renewal_job.go:94-120 | An unfinished worker is replaced by nothing, a cancelled one is never revived, and after closing none starts. |
| Gate.ForgettingCommutes | cmd/rootwelld/gate.go:464-470 | Forgetting sessions one by one, in any order, forgets them all at once. |
| Gate.Daemon.IssueSession | cmd/rootwelld/gate.go:429-462 | Changes the session table in place as one Issue step, keeping the invariant: the new session is stored, at 32 for one that expires first. |
| Gate.Daemon.Oldest | cmd/rootwelld/gate.go:441-450 | The scan of the session table yields a session that no other one expires before. |
| Gate.Daemon.ForgetSession | cmd/rootwelld/gate.go:488-505 | Changes the table and the workers in place as forgetting that session does: it is gone and its workers are paused. |
| Gate.Daemon.ForgetThem | cmd/rootwelld/gate.go:464-470 | Forgetting the given sessions one by one in place leaves what forgetting them all at once does. |
| Gate.Daemon.StartWorker | cmd/rootwelld/timing_watch.go:92-123 | Changes the worker slot in place as one Start step, exactly when the session holds and neither worker is unfinished. |
| Gate.Daemon.AllowAttempt | cmd/rootwelld/gate.go:402-418 | Leaves in place exactly the attempts of the last minute, and this one if it is allowed: fewer than five were. |
| Gate.FiveAMinute | cmd/rootwelld/gate.go:402-418 | Of any attempts in time order, no six that were allowed fall within one minute. |
| AccessEnvelope.CeremoniesConserveTheKey | internal/instanceaccess/access.go:252-422 | Over every sequence of ceremonies the file holds the original data key under the latest password and, on version 3, the latest code; versions never fall, ready never returns to setup, an identity stays. |
| AccessEnvelope.OnlyTheLatestPasswordOpens | internal/instanceaccess/access.go:372-402 | A password opens the file if and only if it derives the same key as the latest one. |
| AccessEnvelope.SameKeyMeansSamePassword | internal/instanceaccess/access.go:312-318 | Two passwords derive the same key if and only if, each of more than 64 bytes replaced by its digest, they are the same but for zero bytes at the end. |
| AccessEnvelope.EitherPasswordOpens | internal/instanceaccess/access.go:252-280 | A file set with one password opens with any other deriving the same key, and a change from the one to the other is accepted and leaves the first opening the file. |
| AccessEnvelope.ZeroByteIsIgnored | internal/instanceaccess/access.go:282-290 | A password shorter than 64 bytes and the same with a zero byte after it are such a pair, both accepted. |
| AccessEnvelope.DigestIsAnotherPassword | internal/instanceaccess/access.go:312-318 | A password of more than 64 bytes and its own digest are such a pair, the digest accepted exactly when it counts fifteen characters. |
| AccessEnvelope.LongPasswordHasATwin | internal/instanceaccess/access.go:282-318 | With SHA-256, a concrete password of 65 bytes and its digest: both accepted, deriving one key. |
| AccessEnvelope.OnlyTheLatestCodeOpens | internal/instanceaccess/recovery.go:60-87 | A code opens the recovery wrap if and only if it is the latest. |
| AccessEnvelope.RecoveryIsGrantedExactly | internal/instanceaccess/recovery_enroll_core.go:19-90 | A code is enrolled or rotated if and only if the latest password is given on a ready file with an identity, without or with a code; a password is reset if and only if the latest code is given on a ready file that has one and the new password is acceptable; another password or code is refused as such. |
| AccessEnvelope.ChangeIsGrantedExactly | internal/instanceaccess/access.go:236-280 | A password is changed if and only if the latest one is given, the file is at the stage asked for, and the new one is acceptable and not the one given. |
| AccessEnvelope.UpgradeIsGrantedExactly | internal/instanceaccess/access.go:202-234 | An identity is added if and only if the latest password is given on a ready file that has none. |
| AccessEnvelope.OnlyTheHolderChangesAnything | internal/instanceaccess/access.go:252-422 | Over every sequence of ceremonies nothing about the file changes but by one that presented the latest password, one deriving its key, or, to reset the password, the latest code. |
| AccessEnvelope.SealedBodyHolds | internal/instanceaccess/access.go:296-337 | A sealed body opens with its password to the key, state and identity it was sealed with. |
| AccessEnvelope.CreatedFileHolds | internal/instanceaccess/access.go:99-116 | A new file is in setup and holds its key under its first password. |
| AccessEnvelope.CommitKeepsKey | internal/instanceaccess/access_upgrade_core.go:12-59 | A committed upgrade carries the same key under the same password with the new identity; a candidate prepared from another body is refused. |
| AccessEnvelope.AccessFile.ChangeLocked | internal/instanceaccess/access.go:252-280 | A password change replaces the stored body by the planned one or leaves it; ChangeIsGrantedExactly says when one is planned. |
| AccessEnvelope.AccessFile.ChangeRecoveryLocked | internal/instanceaccess/recovery_enroll_core.go:19-90 | Enrolling, rotating and resetting replace the stored body as planned, and hand out the code exactly when the file's own credential was given and the replacement confirmed; without it nothing changes. |
| AccessEnvelope.AccessFile.CommitIdentityUpgrade | internal/instanceaccess/access_upgrade_core.go:12-59 | Compare, replace, read back. |
| Bundle.PrepareBundle | internal/certificatepair/bundle.go:89-182 | The verdict, primary, issuer path and bundle that the set of certificates calls for. |
| Bundle.OrderDoesNotMatter | internal/certificatepair/bundle.go:89-182 | Every permutation gets the same verdict and issuer path, and the bundle lists every certificate exactly once. |
| Bundle.FindPath | internal/certificatepair/bundle.go:140-166 | The walk terminates with the path the set determines, or refuses. |
| Bundle.PathIsSimple | internal/certificatepair/bundle.go:140-166 | No certificate comes twice and each is the only verified parent of the one before. |
| Bundle.PathIsComplete | internal/certificatepair/bundle.go:140-166 | The path ends where nothing verified lies above. |
| Bundle.FindParent | internal/certificatepair/bundle.go:147-156 | None, the only one, or too many verified parents. |
| Bundle.CheckSibling | internal/certificatepair/bundle.go:167-177 | Accepts exactly a sibling of the primary that every certificate authority it names has signed. |
| Bundle.Select | internal/certificatepair/bundle.go:100-138 | The primary, or the candidates to choose from. |
| Snapshots.FullRoundTrip | internal/instanceaccess/full_snapshot.go:30-87 | Opening undoes creating, with either credential, and neither length wraps. |
| Snapshots.FullIsExact | internal/instanceaccess/full_snapshot.go:61-87 | An accepted file is exactly header, access snapshot, image and authentication code. |
| Snapshots.FullContentsAreInjective | internal/instanceaccess/full_snapshot.go:49-57 | Two different pairs never share an authenticated encoding. |
| Snapshots.FillFull | internal/instanceaccess/full_snapshot.go:49-57 | The buffer filled by offsets is that encoding. |
| Snapshots.AccessRoundTrip | internal/instanceaccess/snapshot.go:37-112 | Opening an access snapshot undoes creating it. |
| Snapshots.AccessIsExact | internal/instanceaccess/snapshot.go:79-112 | An accepted access snapshot has no byte unaccounted for. |
| Snapshots.FillAccess | internal/instanceaccess/snapshot.go:56-64 | The buffer filled by offsets is the encoding. |
| RecoveryCode.ParseUndoesPrint | internal/instanceaccess/recovery.go:94-116 | Reading a printed recovery code gives its 32 bytes back. |
| RecoveryCode.ParseAcceptsOnlyPrintings | internal/instanceaccess/recovery.go:105-116 | Nothing but a printed code is accepted. |
| RecoveryCode.DecodeUndoesEncode | internal/instanceaccess/recovery.go:94-116 | Base32 without padding reads back, for every length. |
| RecoveryCode.PrintLoop | internal/instanceaccess/recovery.go:94-103 | The loop that peels off groups prints them joined by dashes. |

## Left out

- DnsOperation.Store.Run: preparing the plan in the same transaction, and the plan's other records, which no operation touches.
- StoreReserve.EveryStoreIsSound: limits on the size of the image and of single ciphertexts, whose reserves are counted the same way in bytes.
- StoreReserve.DischargeIsNeverRefused: refusals for other reasons than room, such as a duplicate certificate.
- ClosedArchive.CloseKeepsAccepted: the event appended beside the change, which StoreReserve covers.
- OrderRuns.ConversationsAreSafe: the provider-wait hints that the transports collect from answers, and the operation's own timeout, which is part of permission.
- CertificateTransport.Transport.RoundTrip: keeps the authorization addresses in the order listed, where the code sorts them; nothing depends on it.
- RenewalJob.EveryRunIsOrderly: which action the renewal cycle decides on; decisions are arbitrary.
- Gate.EveryRunIsSound: session identifiers are fresh random tokens and are taken to be new.
- Gate.Daemon.IssueSession: it and the other methods of the daemon each make one step; the handlers that call them are not composed from them.
- IssuanceTransaction.Store.Publish: the verification of a fetched chain against the saved key and request is an input.
- Bundle.PrepareBundle: parsing, key matching and signature verification are inputs; fingerprints are distinct.
- Snapshots.FullRoundTrip: unlocking an access body and opening an inventory image are given functions.
- AccessEnvelope.CeremoniesConserveTheKey: password derivation, file reading and directory syncing beyond made, unconfirmed or not made.
- The retry-after header parser, and the merging of its hints across one certificate operation.
- HTTP headers, strict JSON field reading, media types, PEM and JWS encodings: a request or an answer is what the readers make of it.
- Names, zones and values of a DNS plan, its binding to the provider configuration, and the distinctness of its records.
- The chain fingerprints and root of a completed certificate, and its verification.
- Renewal timing storage and the timing watch's tick, which has the shape of the renewal worker's.
- The production account, key conversion, displays, listings, the command line and the browser assets.
- File permissions, temporary names, memory clearing and the stubs for other systems.
