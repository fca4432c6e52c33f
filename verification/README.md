# Booking, dispatch and payment core: a Dafny model

The backend is a set of small state machines over shared database rows. Retries,
webhooks, concurrent operators and a fallible calendar drive them. This project models
those machines and proves what they keep.

A service appears here in up to three forms:

- a *machine*: a `State`, an `Action` and a deterministic `Step`, in which every database
  write, every guarded `updateMany` and every external call is one step whose outcome is
  part of the action. `Run` folds a sequence of actions, so a lemma about `Run` is a
  statement about every interleaving, every crash point and every failure;
- a *class* for each row the services update in place. Its methods are whole calls and are
  proved to take the machine's steps with nothing between them;
- *functions* for code that only computes, with lemmas about their results.

| files | what they model |
|---|---|
| `CalendarSagas`, `CalendarOrphans` | confirm, reschedule and cancel as interleaved steps: a guarded row write, a calendar call, and compensation; which events exist and which are left behind |
| `SagaOutcomes`, `SagaTurns`, `SagaRaces` | where these calls end among the calls of other jobs, and when two of them race on one job |
| `SchedulingStore`, `BookingAnswers`, `BookingWrites` | the three calls in place, run alone, what they answer, and what each step writes |
| `TimeZone`, `SlotSearch` | the local-time fixpoint, the candidate grid, and filtering against busy time |
| `SmsDelivery`, `SmsSerialized`, `SmsReports` | claim, send, retry, dead letter, provider callbacks, operator replay |
| `JobWorkflow`, `JobOutcomes`, `JobRecord`, `TechnicianRules` | assign, release, technician updates and completion of one job row |
| `Routing`, `DispatchBoard`, `PaymentGate`, `DispatchRules` | first-match rules, ranking, overrides, and the payment gate |
| `PaymentRow`, `PaymentRequests`, `PaymentRefusals`, `PaymentOutcomes`, `StripeWebhooks`, `WebhookRules`, `PaymentRecord` | keyed reservations, takeover of stale requests, Stripe events |
| `Reporting`, `ReportOutcomes`, `ReportRules` | the lead-source report |
| `Common`, `Sorting` | shared vocabulary; sorting by several criteria |

`dafny verify dfyconfig.toml` checks the whole project.

## Assumptions

- `attemptCount` starts at 0, and every write to a row changes its `updatedAt`; a `version`
  counter stands for it. A caller names only a version that was committed before its call.
- Unique keys exist where error P2002 is caught. Requests' keys stand for their SHA-256
  hashes, which are taken to be injective.
- A database write that fails had no effect. A calendar call works, fails without effect, or
  takes effect and still reports a failure; the third case is excluded only where a lemma says so.
- Time-zone offsets are whole minutes. Instants are integers, in milliseconds.
- The arithmetic of report rates is any rounding that keeps order, is exact on integers up to
  2^53 and errs by at most one part in 2^53. White space is the ASCII white space.
- `localeCompare` is comparison of integer weights; user ids and report keys have distinct
  weights where a lemma says so.

## Where the code differs from what it says

- A failed reschedule answers "Your original time is still reserved"
  (src/scheduling/scheduling.service.ts:777-779). When the audit write and then the rollback
  patch fail, row and calendar both keep the new time: `MoveAnswersTrulyBut`. And while the
  call is under way another job may take the old window, so that the undo is refused and row
  and event stay apart: `RescheduleEndsExactly`, `VacatedWindowIsTaken`.
- The compensation of a failed confirmation writes CREATED and an empty time text
  (src/scheduling/scheduling.service.ts:277-285), whatever was there: `ConfirmRestoresIff`.
- COMPLETED is not final: only CANCELLED stops a technician
  (src/jobs/technician-workflow.service.ts:143): `StatusFallsIff`, `TechnicianReopens`.
- Callbacks read and write separately, so two of them racing can replace DELIVERED:
  `RacingReportsLoseDelivered`; exactly when, says `DeliveredStaysIff`. Webhooks read the
  payment outside their transaction, so a stale failure can replace a recorded payment:
  `RacingEventsLosePayment`.
- `recordFailure` does not look at the status (src/payments/payment-requests.service.ts:624-632),
  so a failed provider answer erases a payment completed before it: `FailureErasesPayment`.
- A key reused after the price changed can leave a checkout for the old amount beside the new
  total: `ReusedKeyMisprices`; with one price per key it cannot: `CheckoutChargesTheTotal`.
- `bookedToCompleted` may exceed 1, because `completedAt` alone makes a job completed
  (src/reporting/reporting.service.ts:94-95): `RateMayPassOne`, `ExactRatioInUnit`.

## Model

The first 50 rows, down to `ReportOutcomes.RatesAreFaithful`, are the main results; the rows
after them are the operations and steps they rest on, module by module.

| member | source | states |
|---|---|---|
| CalendarSagas.EventsBelongToOneJob | src/scheduling/scheduling.service.ts:801-859 | in every interleaving over many jobs a row's event exists and was created for that job (or was deleted by a call that misreported), no two jobs share one, and an event yet to be stored or deleted is in no row |
| CalendarOrphans.OrphansAreCounted | src/scheduling/scheduling.service.ts:258-285 | in every interleaving the calendar events that no row and no call knows of are exactly those there were and one for each insertion that misreported, failed or overwriting store, and refused or failed cancellation undo; none is found again |
| CalendarOrphans.RowEventsExist | src/scheduling/scheduling.service.ts:829-859 | when no deletion misreports, every event a row names exists and is that job's |
| SagaTurns.CallSeesItsTurns | src/scheduling/scheduling.service.ts:226-285 | in every interleaving with the calls of other jobs, what a call does to its job is the solo run of its own turns: outcome, row status, whether its window is taken, fresh id |
| SagaTurns.RescheduleEndsExactly | src/scheduling/scheduling.service.ts:686-762 | in every such interleaving a finished reschedule has row and event each at the new or the old window, exactly which, and row and event disagree iff its turns are torn |
| SagaTurns.ConfirmEndsExactly | src/scheduling/scheduling.service.ts:226-285 | in every interleaving with other jobs a finished confirmation leaves the row as it was, empty, or booked under its own event, or, iff its compensating write failed, with a window and no event |
| SagaTurns.CancelEndsExactly | src/scheduling/scheduling.service.ts:801-859 | in every interleaving with other jobs, whether a finished cancellation leaves the booking, when the row names a missing event and when the event outlives the booking, each iff |
| SagaTurns.OnlyTheIndexTears | src/scheduling/scheduling.service.ts:747-771 | with honest calendar calls and no failing compensation, torn iff another job of the tenant holds the old window at the undo |
| SagaTurns.VacatedWindowIsTaken | src/scheduling/scheduling.service.ts:729-771 | the run in which that happens: one saga per job, the old window taken by another job while the calendar shows it free, and the undo refused |
| SagaOutcomes.FinishedSagasSettle | src/scheduling/scheduling.service.ts:258-295 | with one saga per job, whatever fails and however the sagas interleave, a job with no saga under way has neither window nor event, or an event whose window is its own, if no step of the run breaks it: no calendar call takes effect and reports a failure, and no compensating write fails or finds its window taken |
| SagaRaces.MovesAgreeIff | src/scheduling/scheduling.service.ts:689-711 | of two successful reschedules of one job, in every order of their turns, row and calendar agree iff the patches took effect in the order of the reservations |
| SchedulingStore.MoveAnswersTrulyBut | src/scheduling/scheduling.service.ts:710-779 | a reschedule that answers with a failure has left row and calendar, except in exactly one case, audit and then rollback failing, in which both have the new time |
| BookingAnswers.CancelAnswersTruly | src/scheduling/scheduling.service.ts:783-868 | for every row and every pattern of faults, the job is CANCELLED afterwards iff the call answered with success, or its event could not be deleted and its booking not restored |
| TimeZone.ZonedTimeIsExact | src/scheduling/scheduling.service.ts:1209-1221 | if an instant shows the desired time and the offset is constant near it, two iterations reach it and the third leaves it fixed |
| SlotSearch.CandidatesAreTheGrid | src/scheduling/scheduling.service.ts:877-900 | a slot is a candidate iff it is 8 to 11, 11 to 14 or 14 to 17 on the local clock of a Monday to Friday within the lookahead, starting no earlier than the notice |
| SlotSearch.CandidatesAreOrdered | src/scheduling/scheduling.service.ts:871-902 | candidates are proper periods in strict order, and no two overlap |
| SlotSearch.OfferIsTheFirstEight | src/scheduling/scheduling.service.ts:149-151 | the k-th free candidate stands at position k for k below eight, and nothing else is offered |
| SlotSearch.RangeQueryLosesNothing | src/scheduling/scheduling.service.ts:121-147 | restricting and clipping busy time to the candidates' range gives the same offer as using all of it |
| SmsDelivery.DuplicatesNeedReplays | src/communications/sms-delivery.service.ts:200-386 | in every interleaving, with reads split from writes, accepted or ambiguous sends are at most 1 + replay writes, and all sends at most 3 × (1 + replay writes) |
| SmsDelivery.BoundIsReached | src/communications/sms-delivery.service.ts:222-233 | the bound is tight: for every n there is a run with n replays and n + 1 accepted sends |
| SmsSerialized.HistoryKeepsConsistent | src/communications/sms-delivery.service.ts:256-386 | in every serialized history QUEUED, SENDING and FAILED have no external id, terminalAt is set exactly for DELIVERED and DEAD_LETTER, and FAILED has one or two attempts and a next attempt |
| SmsSerialized.ReportsCommute | src/communications/sms-delivery.service.ts:335-369 | permuting or repeating reports does not change the final status |
| SmsSerialized.DeadLetteredIff | src/communications/sms-delivery.service.ts:335-369 | after any reports the row is dead-lettered iff it was, or was not delivered and some report says failed or undelivered, and none says delivered |
| SmsReports.RankNeverFallsIff | src/communications/sms-delivery.service.ts:344-368 | in every interleaving without a replay write, the rank of the row never falls iff no callback is written that ranks below the row it finds at its write |
| SmsReports.DeliveredStaysIff | src/communications/sms-delivery.service.ts:356-368 | a row that has become DELIVERED in any interleaving stays so through any further one without a replay write iff no such callback is written |
| JobWorkflow.LogReconstructsTheRow | src/jobs/technician-workflow.service.ts:192-225 | in every interleaving folding the audit log gives holder and technician status; each entry names exactly what it replaces, and an override, reassignment or uncovered assignment carries its reason; entries and effective writes are one to one |
| JobOutcomes.VersionsAreWonOnce | src/jobs/dispatch-board.service.ts:276-294 | of calls naming one version at most one succeeds |
| JobOutcomes.WorkNeverGoesBack | src/jobs/technician-workflow.service.ts:147-201 | through any releases and reassignments status never goes back while no operator completes the job, technician status is set exactly when someone is assigned, started and finished work shows in the status, and begun work has acceptedAt |
| JobOutcomes.CompletedOnce | src/jobs/job-lifecycle.service.ts:27-112 | any completeJob calls racing a technician: at most one completion, and one iff COMPLETED, exactly when no technician starts or completes a job read as COMPLETED; then every successful call reports that completion |
| TechnicianRules.UpdateChangesIff | src/jobs/technician-workflow.service.ts:43-49 | for the holder of a job that is not cancelled, from exactly which technician statuses each action changes the row |
| TechnicianRules.HolderCanFinish | src/jobs/technician-workflow.service.ts:43-49 | from every unfinished status the holder can bring a job that is not cancelled to COMPLETED by updates alone |
| DispatchRules.EvaluationIs | src/jobs/routing.service.ts:368-437 | the matched rule, coverage and requirements, from the rules and the job alone, defaults included |
| DispatchRules.RecommendationOutranks | src/jobs/dispatch-board.service.ts:580-582 | the recommendation outranks every other eligible candidate |
| DispatchBoard.AdmittedIff | src/jobs/dispatch-board.service.ts:233-274 | an assignment is admitted iff the gate is not LOCKED, the technician is a candidate, and there is a reason of ten characters or an unassigned job goes to the recommended technician |
| PaymentRequests.SessionBelongsToKey | src/payments/payment-requests.service.ts:372-456 | in every interleaving a stored checkout was created by the provider under the stored key |
| PaymentRequests.ReservationWonIff | src/payments/payment-requests.service.ts:502-551 | in every interleaving a reservation is won iff nothing was written since the load and the memory guard passed; the database's status and time clauses never refuse on their own |
| PaymentRequests.ReservationsPay | src/payments/payment-requests.service.ts:431-455 | in every interleaving, for every key, stored checkouts and recorded failures are each at most the reservations won |
| PaymentRefusals.CreateAnswers | src/payments/payment-requests.service.ts:374-399 | on the stored payment, when each of paid, link inactive, request active and replay is answered, each without a write |
| PaymentRefusals.SpentKeyIsNeverReserved | src/payments/payment-requests.service.ts:386-411 | in every interleaving a reservation is won only on a row requested under another key or without a checkout |
| PaymentOutcomes.StoredTotalIsTheSum | src/payments/payment-requests.service.ts:365-411 | in every interleaving the stored total is the sum of the parts required by a job loaded under the stored key, in 1..200,000,000 |
| PaymentOutcomes.CheckoutChargesTheTotal | src/payments/payment-requests.service.ts:419-430 | with one price per key the stored checkout charges the stored total |
| PaymentRecord.RefundsStaySound | src/payments/stripe-webhooks.service.ts:272-307 | across serialized requests, retries, failures and webhooks, refunds are bounded and FULL implies REFUNDED |
| StripeWebhooks.RedeliveryChangesNothing | src/payments/stripe-webhooks.service.ts:90-104 | any delivery sequence leaves the payment, audits and ids of the events kept at their first acceptance |
| StripeWebhooks.DeliveriesDecide | src/payments/stripe-webhooks.service.ts:230-293 | from an open request: REFUNDED if a full refund was accepted, else SUCCEEDED if a paid completion was, else as the first failure or expiry says, else PENDING; the refund is the last accepted one |
| StripeWebhooks.StaleReadAgreesIff | src/payments/stripe-webhooks.service.ts:79-91 | when a webhook that read an older status writes what it would write now |
| Reporting.Aggregate | src/reporting/reporting.service.ts:83-151 | the whole call computes the specified totals, rates, source rows and landing pages |
| ReportOutcomes.ReportConservesCounts | src/reporting/reporting.service.ts:232-266 | in all six fields the sources add up to the totals, which count the jobs; attributed and unattributed make up the created |
| ReportOutcomes.ReportIgnoresJobOrder | src/reporting/reporting.service.ts:83-152 | the report is the same for every order of the jobs |
| ReportOutcomes.KeysAgreeIff | src/reporting/reporting.service.ts:206-230 | when no source and no medium holds the separator, two jobs share a key iff they agree on attribution and on the three texts |
| ReportOutcomes.RatesAreFaithful | src/reporting/reporting.service.ts:268-279 | when completed implies booked for every job, each rate, overall and by source, lies in [0, 1] within 0.00005 (and roundoff below 10^-15) of its exact ratio |
| CalendarSagas.StepKeepsOwned | src/scheduling/scheduling.service.ts:226-285 | every step of every saga, failing or not, keeps event ownership: rows, in-flight sagas and calendar agree on which job each event was created for, and an event a saga holds is in no row and in no other saga's hands |
| CalendarOrphans.StepCounts | src/scheduling/scheduling.service.ts:844-859 | one step adds to those events exactly the event it leaves behind |
| SagaOutcomes.OthersUntouched | src/scheduling/scheduling.service.ts:689-698 | a saga's step leaves window, event and calendar entry of every other job as they were |
| SagaOutcomes.StepKeepsCoherent | src/scheduling/scheduling.service.ts:688-769 | with one saga per job, each step leaves the job at the half-way state its next step starts from, and every job without a saga settled |
| SagaOutcomes.BlurredIff | src/scheduling/scheduling.service.ts:686-762 | the mark a job carries in the model says exactly that a step of the run broke it |
| SagaTurns.MoveRun | src/scheduling/scheduling.service.ts:688-762 | the ending of a reschedule as a closed form of its turns |
| SagaTurns.ConfirmRun | src/scheduling/scheduling.service.ts:226-294 | the ending of a confirmation as a closed form of its turns |
| SagaTurns.CancelRun | src/scheduling/scheduling.service.ts:801-868 | the ending of a cancellation as a closed form of its turns |
| SagaRaces.RacingMovesDisagree | src/scheduling/scheduling.service.ts:689-711 | two successful reschedules of one job can leave row and calendar at different windows |
| SchedulingStore.ConfirmEnds | src/scheduling/scheduling.service.ts:226-294 | for a call that runs alone: the whole final store, for each pattern of failures |
| SchedulingStore.ConfirmRestoresIff | src/scheduling/scheduling.service.ts:276-285 | compensation restores the row iff it was CREATED and had no time text |
| SchedulingStore.MoveEndsOldOrNew | src/scheduling/scheduling.service.ts:686-780 | for a call that runs alone: exactly (old store) or (new row, new event), and which for each pattern of failures |
| SchedulingStore.CancelEnds | src/scheduling/scheduling.service.ts:801-868 | for a call that runs alone: booking and event go together or stay, up to a filled-in time text |
| SchedulingStore.Scheduling.ConfirmAppointment | src/scheduling/scheduling.service.ts:211-295 | the call in place takes exactly the machine's steps and answers exactly as specified; on success the row has the window and the new event |
| SchedulingStore.Scheduling.RescheduleAppointment | src/scheduling/scheduling.service.ts:642-781 | the call in place, with its two flags, takes exactly the machine's steps and answers exactly as specified |
| SchedulingStore.Scheduling.AuditOrUndo | src/scheduling/scheduling.service.ts:719-762 | the audit write, the rollback patch and the row compensation are taken exactly as the machine takes them |
| SchedulingStore.Scheduling.CancelAppointment | src/scheduling/scheduling.service.ts:783-868 | the call in place takes exactly the machine's steps and answers exactly as specified |
| SchedulingStore.ConfirmAnswersTruly | src/scheduling/scheduling.service.ts:211-294 | a confirmation answers with success iff the job then holds the window, accepted and with an event |
| BookingAnswers.CancelAnswers | src/scheduling/scheduling.service.ts:784-828 | when each of Invalid, Conflict, Unavailable and success is answered, from the row and the faults; an already cancelled job is a success |
| BookingAnswers.ConfirmAnswers | src/scheduling/scheduling.service.ts:194-294 | when each answer is given, from the rows, the window and the faults; a conflict is a booked row or another job of the tenant at that window |
| BookingAnswers.MoveAnswers | src/scheduling/scheduling.service.ts:642-781 | when each answer is given, likewise |
| BookingAnswers.RefusedConfirmChangesNothing | src/scheduling/scheduling.service.ts:194-256 | an invalid or conflicting confirmation, and a repeated one, leave rows and calendar as they were |
| BookingAnswers.RefusedMoveChangesNothing | src/scheduling/scheduling.service.ts:653-708 | an invalid or conflicting reschedule, and one to the same window, leave rows and calendar as they were |
| BookingAnswers.CancelOfUnbooked | src/scheduling/scheduling.service.ts:784-799 | a cancellation of a job that is not booked changes nothing |
| BookingWrites.ConfirmReserves | src/scheduling/scheduling.service.ts:227-256 | in any state, when the reservation of a confirmation takes effect and which columns it writes |
| BookingWrites.MoveReserves | src/scheduling/scheduling.service.ts:689-708 | likewise for a reschedule: the row as read, and no rival at the new window |
| BookingWrites.CancelReserves | src/scheduling/scheduling.service.ts:806-827 | likewise for a cancellation |
| BookingWrites.ConfirmUndoes | src/scheduling/scheduling.service.ts:277-285 | the undo of a confirmation spares a row that has an event |
| BookingWrites.MoveUndoes | src/scheduling/scheduling.service.ts:747-762 | the undo of a reschedule writes only over its own window and event, not against the unique index |
| BookingWrites.CancelUndoes | src/scheduling/scheduling.service.ts:845-859 | the undo of a cancellation writes only over a job still cancelled and without an event |
| BookingWrites.NextAfter | src/scheduling/scheduling.service.ts:258-295 | where each saga goes after a calendar call, a store or an audit, by its outcome |
| BookingWrites.CalendarWrites | src/scheduling/scheduling.service.ts:937-1025 | what each calendar call and the store change |
| TimeZone.ZonedTime | src/scheduling/scheduling.service.ts:1205-1222 | the loop computes the threefold refinement of the desired local time |
| TimeZone.ZonedTimeIsBracketed | src/scheduling/scheduling.service.ts:1209-1221 | in any zone the result is the desired time less some offset between the zone's bounds |
| TimeZone.NarrowZonesAdvance | src/scheduling/scheduling.service.ts:1205-1222 | when offsets vary by under three hours, local hours three apart map to instants in their order |
| TimeZone.LocalDayIsToday | src/scheduling/scheduling.service.ts:1194-1197 | today is the local day whose midnight was the last to pass on the zone's clock |
| TimeZone.ClockShowsTheHour | src/scheduling/scheduling.service.ts:1205-1222 | where the offset holds still, a local hour of a day is mapped to the instant that shows it, on that local day |
| SlotSearch.BuildCandidates | src/scheduling/scheduling.service.ts:871-902 | the call yields the candidate grid of the zone's clock from today's local date |
| SlotSearch.BuildDays | src/scheduling/scheduling.service.ts:876-901 | the nested loops compute the grid, weekends and short notice skipped |
| SlotSearch.OffersAreBookable | src/scheduling/scheduling.service.ts:115-164 | every offered slot is such a window and meets no busy time and no accepted reservation, at most eight are offered, and no two overlap |
| SlotSearch.WeeksRepeat | src/scheduling/scheduling.service.ts:883-884 | days 2 and 3 of the epoch are weekend, the five after them are not, and weeks repeat |
| SlotSearch.OffersAreInTheFuture | src/scheduling/scheduling.service.ts:871-888 | for a call at a given time: windows of Monday to Friday, from today on the local calendar for the lookahead, not sooner than the notice in minutes |
| SlotSearch.OverlapsIff | src/scheduling/scheduling.service.ts:1061-1067 | two proper periods overlap iff they share an instant, ends excluded |
| SmsDelivery.StepKeepsLicences | src/communications/sms-delivery.service.ts:252-333 | every step conserves licences and attempts: spent, carried by a delivery in flight, or offered by a claimable row |
| SmsDelivery.SpentLicencesSilence | src/communications/sms-delivery.service.ts:256-272 | once the bound is reached nothing is sent again before another replay write, whatever else happens |
| SmsSerialized.CommunicationEvent.DeliverOnce | src/communications/sms-delivery.service.ts:252-333 | a delivery in place leaves the row of the machine's run; it answers iff the row was claimable, with the stored status |
| SmsSerialized.CommunicationEvent.ApplyStatusOnce | src/communications/sms-delivery.service.ts:335-369 | a callback in place leaves the row of the machine's run; it is known iff its word is one of the provider's seven and the message is known |
| SmsSerialized.CommunicationEvent.ReplayDeadLetter | src/communications/sms-delivery.service.ts:200-250 | a replay in place makes the row fresh iff dead-lettered, acknowledged and reasoned, and otherwise changes nothing |
| SmsSerialized.DeliverIsARun | src/communications/sms-delivery.service.ts:256-332 | an undisturbed delivery, column by column for each outcome, with the waits of one and two minutes |
| SmsSerialized.ApplyStatusIsARun | src/communications/sms-delivery.service.ts:344-368 | an undisturbed callback, column by column and in the provider's words |
| SmsSerialized.ReplayIsARun | src/communications/sms-delivery.service.ts:207-233 | an undisturbed replay makes the row fresh iff dead-lettered, acknowledged and given a reason of ten to five hundred characters |
| SmsSerialized.FailedIsNeverStuck | src/communications/sms-delivery.service.ts:118-141 | a QUEUED row is due, a FAILED one is due exactly from its recorded instant, and a delivery then claims it |
| SmsSerialized.ReportsTakeTheHighest | src/communications/sms-delivery.service.ts:356-368 | after any reports the row has the highest-ranked status among its own and theirs |
| SmsSerialized.DeliveredIsKept | src/communications/sms-delivery.service.ts:409-423 | the row ends DELIVERED iff it was, or some report says so, wherever it stands |
| SmsSerialized.RacingReportsLoseDelivered | src/communications/sms-delivery.service.ts:345-368 | unserialized, two racing reports can replace DELIVERED by DEAD_LETTER |
| SmsSerialized.SentMessageReports | src/communications/sms-delivery.service.ts:409-416 | what each word of the provider does to a SENT message: delivered, failed and undelivered end it, every other leaves it; and which words are known |
| SmsSerialized.DueIff | src/communications/sms-delivery.service.ts:121-132 | which rows are due |
| SmsReports.DeliveredChangesIff | src/communications/sms-delivery.service.ts:200-386 | every way a DELIVERED row can change: a lower report, a stale replay, or a delivery in flight recording its end |
| SmsReports.StepKeepsOneDelivery | src/communications/sms-delivery.service.ts:252-333 | until a replay is written one delivery at a time is in flight, only while the row is SENDING, and a step lowers the rank iff it writes a lower report |
| JobWorkflow.StepKeepsReady | src/jobs/dispatch-board.service.ts:276-289 | a call whose named version is current at its write acts on the very row it read and checked |
| JobOutcomes.StatusFallsIff | src/jobs/technician-workflow.service.ts:184-186 | job status goes back iff a technician's start commits on a row already COMPLETED |
| JobOutcomes.TechnicianMovesUp | src/jobs/technician-workflow.service.ts:43-49 | every technician entry that is not a release strictly raises the technician's rank |
| JobOutcomes.TechnicianReopens | src/jobs/technician-workflow.service.ts:143-156 | a completed job can be started again, or completed again with another completedAt than was reported |
| JobOutcomes.LateIsCounted | src/jobs/technician-workflow.service.ts:147-201 | a technician's write is late exactly when it starts or completes a job that the technician read as COMPLETED |
| JobRecord.Job.Assign | src/jobs/dispatch-board.service.ts:188-332 | the transaction in place is the machine's read and write, and answers changed, no change, rejected or conflict exactly as its read and the version say |
| JobRecord.Job.CancelAssignment | src/jobs/dispatch-board.service.ts:334-402 | likewise: a change releases and is one entry |
| JobRecord.Job.TechnicianUpdate | src/jobs/technician-workflow.service.ts:131-250 | likewise: the update built field by field is the machine's write |
| JobRecord.Job.CompleteJob | src/jobs/job-lifecycle.service.ts:28-111 | likewise: a success reports the stored completedAt, a repeated call changes nothing |
| TechnicianRules.UpdateRepeatsIff | src/jobs/technician-workflow.service.ts:147-157 | which repeated actions answer without a change |
| TechnicianRules.UpdateRefusals | src/jobs/technician-workflow.service.ts:132-207 | nobody but the holder, nobody on a cancelled job, and a conflict under another version |
| TechnicianRules.MissingStatusCounts | src/jobs/technician-workflow.service.ts:325-335 | a held row without a technician status counts by its job status |
| TechnicianRules.UpdateWrites | src/jobs/technician-workflow.service.ts:158-190 | what each action writes, column by column |
| TechnicianRules.UpdateAudits | src/jobs/technician-workflow.service.ts:209-225 | each effective update leaves one audit of the status before and after |
| TechnicianRules.AssignAnswers | src/jobs/dispatch-board.service.ts:218-294 | what an assignment answers, from the row, the gate and the candidates |
| TechnicianRules.CancelAssignmentAnswers | src/jobs/dispatch-board.service.ts:349-390 | what a release answers, writes and records |
| TechnicianRules.CompleteWrites | src/jobs/job-lifecycle.service.ts:46-108 | completeJob completes accepted and started jobs and no others, and its audit names the status before |
| Routing.MatchGoverns | src/jobs/routing.service.ts:368-385 | the match is the least (priority, id) active applicable rule whose area admits the postal code, and coverage is lost exactly when rules apply and none admits |
| Routing.LaterRuleKeepsMatch | src/jobs/routing.service.ts:371-384 | a rule ordered after the match, or one that does not apply or admit, changes nothing |
| Routing.StorageOrderIsIrrelevant | src/jobs/routing.service.ts:368-384 | the evaluation is the same for every storage order of the rules |
| DispatchBoard.RecommendationIsTheBest | src/jobs/dispatch-board.service.ts:580-582 | the recommendation is the eligible candidate ranked above all others, absent exactly when nobody is eligible |
| DispatchBoard.RankCandidates | src/jobs/dispatch-board.service.ts:503-578 | mapping and sorting the rows computes the ranked list |
| DispatchBoard.EligibleIffNothingBlocks | src/jobs/dispatch-board.service.ts:514-561 | a candidate is eligible exactly when none of the blocking reason codes is listed |
| DispatchBoard.RankingIgnoresRowOrder | src/jobs/dispatch-board.service.ts:571-577 | the ranked list is strictly ordered and the same for every permutation of the user rows |
| DispatchBoard.RankedHolds | src/jobs/dispatch-board.service.ts:503-570 | the list holds each user's candidate and no other |
| DispatchBoard.UncoveredNeedsReason | src/jobs/dispatch-board.service.ts:234-274 | uncovered or LOCKED means nobody is eligible; an uncovered assignment is an override with a reason; a LOCKED job is never assigned |
| DispatchRules.GateIs | src/payments/payment-gate.policy.ts:48-113 | when the gate is not required, unlocked and locked |
| DispatchRules.CandidateIs | src/jobs/dispatch-board.service.ts:505-561 | who is available and who is eligible, from the user row and the job |
| DispatchRules.ReasonsAre | src/jobs/dispatch-board.service.ts:514-524 | which codes explain skill and times |
| DispatchRules.MoreReasonsAre | src/jobs/dispatch-board.service.ts:522-532 | which codes explain the area, the calendar, the workload and the gate |
| DispatchRules.ProficiencyCounts | src/jobs/dispatch-board.service.ts:533-545 | what each level of proficiency adds to the score |
| DispatchRules.AvailabilityCounts | src/jobs/dispatch-board.service.ts:563-566 | what availability and a block add to the score |
| DispatchRules.WorkloadCounts | src/jobs/dispatch-board.service.ts:567 | what each active job costs |
| DispatchRules.ScoreBottom | src/jobs/dispatch-board.service.ts:563-568 | no score is below zero, and who scores zero |
| DispatchRules.RankedByMerit | src/jobs/dispatch-board.service.ts:571-577 | every candidate outranks all after it: eligible first, then score, name and id |
| DispatchRules.OverrideIff | src/jobs/dispatch-board.service.ts:262-265 | an admitted assignment is an override iff it does not go to the recommended technician |
| DispatchRules.CollapseIs | src/jobs/dispatch-board.service.ts:266 | collapsing keeps every other character and leaves single spaces |
| PaymentRequests.RequirementIsTheSum | src/payments/payment-requests.service.ts:658-729 | a requirement exists iff a part is required and every required part and the currency are valid; its total is their sum, in 1..200,000,000 |
| PaymentRequests.GuardsAgree | src/payments/payment-requests.service.ts:774-788 | the memory guard at a time implies the database guard at any later time, and the two agree at one time |
| PaymentRequests.StepKeepsBacked | src/payments/payment-requests.service.ts:568-611 | every step keeps each checkout, stored or in flight, tied to the key it was created under |
| PaymentRequests.RequestReplacedOnlyWhenOver | src/payments/payment-requests.service.ts:510-546 | a stored key, total or checkout gives way only to a reservation, and only when the row is retryable, expired or abandoned |
| PaymentRequests.RecordWritesIff | src/payments/payment-requests.service.ts:623-633 | an answer is written iff the row still has the call's key and no checkout; a replay never writes a failure |
| PaymentRefusals.LoadAnswers | src/payments/payment-requests.service.ts:343-368 | which check refuses a request before the payment is looked at |
| PaymentRefusals.RequirementIs | src/payments/payment-requests.service.ts:658-710 | when a job asks for a payment, when its pricing is invalid, and the total |
| PaymentRefusals.OneOfFour | src/payments/payment-requests.service.ts:383-401 | what is left is reserved, and nothing else is |
| PaymentRefusals.CreateWrites | src/payments/payment-requests.service.ts:510-656 | what the reservation, the checkout and the failure write, column by column |
| PaymentRefusals.ReserveRefusals | src/payments/payment-requests.service.ts:474-551 | why a reservation is refused, on the payment as loaded and as found |
| PaymentOutcomes.ReusedKeyMisprices | src/payments/payment-requests.service.ts:373-384 | a key reused at another price can store the old checkout beside the new total |
| PaymentOutcomes.RefundStaysBounded | src/payments/payment-requests.service.ts:530-545 | through requests, retries, failures and webhooks, 0 ≤ refund ≤ total and FULL iff refund = total, while each webhook meets the total it read |
| PaymentOutcomes.StaleRefundBoundedIff | src/payments/stripe-webhooks.service.ts:272-291 | a refund read before a re-request stays bounded iff it fits the new total as it fitted the old |
| PaymentOutcomes.StaleRefundExceeds | src/payments/stripe-webhooks.service.ts:79-89 | a run in which such a refund exceeds the new total |
| PaymentOutcomes.ClosedRequestIsKept | src/payments/payment-requests.service.ts:383-399 | whatever create calls are in flight, a paid or live request keeps its whole row until its checkout expires |
| PaymentOutcomes.FailureErasesPayment | src/payments/payment-requests.service.ts:614-633 | a failed provider answer turns a payment completed meanwhile into FAILED |
| PaymentRecord.CreateIsAlone | src/payments/payment-requests.service.ts:383-456 | an undisturbed create call, five machine steps, has one closed effect on row, log and answer |
| PaymentRecord.RepeatedCreate | src/payments/payment-requests.service.ts:374-399 | while a checkout is open the same key answers with the stored payment and another key is refused, with no change |
| PaymentRecord.WebhookIsReceive | src/payments/stripe-webhooks.service.ts:79-142 | an undisturbed webhook, read and transaction, is one application of the event |
| PaymentRecord.PaymentService.Create | src/payments/payment-requests.service.ts:318-457 | the call in place leaves exactly the row, log and outcome of the undisturbed call |
| PaymentRecord.PaymentService.ReserveRequest | src/payments/payment-requests.service.ts:459-552 | reserves, for any snapshot, iff no guard refuses, and says which one did |
| PaymentRecord.PaymentService.RecordCreated | src/payments/payment-requests.service.ts:554-612 | stores the checkout and one entry iff the row awaits it, and answers the stored row |
| PaymentRecord.PaymentService.RecordFailure | src/payments/payment-requests.service.ts:614-656 | writes FAILED and one entry iff the row awaits the call |
| PaymentRecord.PaymentService.Receive | src/payments/stripe-webhooks.service.ts:61-143 | the call in place is the machine's read and transaction |
| StripeWebhooks.MovedMoneyCommutes | src/payments/stripe-webhooks.service.ts:240-293 | once money has moved, delivery order does not matter to the status |
| StripeWebhooks.GateFollowsTheMoney | src/payments/payment-gate.policy.ts:43-114 | behind required payment the gate is open iff money was received and not wholly refunded, or an exception is active |
| StripeWebhooks.ReceiveKeepsRefundSound | src/payments/stripe-webhooks.service.ts:277-292 | every event keeps the refund within the total, FULL exactly at the total, and FULL only on a REFUNDED payment |
| StripeWebhooks.RacingEventsLosePayment | src/payments/stripe-webhooks.service.ts:88-110 | a failure read before a completion and written after it takes the payment away |
| WebhookRules.RejectedIff | src/payments/stripe-webhooks.service.ts:230-293 | which events are rejected |
| WebhookRules.ReceiveWrites | src/payments/stripe-webhooks.service.ts:88-143 | what every webhook writes to payment, ids and audits, column by column |
| Reporting.Collect | src/reporting/reporting.service.ts:88-127 | the loop leaves the overall totals and one counter object for each source and for each landing page |
| Reporting.GroupsAreTheSources | src/reporting/reporting.service.ts:106-113 | grouping by any key gives one group for each key that occurs, with the total of exactly its jobs |
| ReportOutcomes.RowsAreTheSources | src/reporting/reporting.service.ts:129-138 | exactly one row for each source, with its total and rates, in strict order of leads and key |
| ReportOutcomes.UnattributedStandApart | src/reporting/reporting.service.ts:206-214 | the unattributed row holds all unattributed jobs and no other |
| ReportOutcomes.SourcesMayShareAKey | src/reporting/reporting.service.ts:216-220 | otherwise different sources can share a key and so a row |
| ReportOutcomes.RatioIsClose | src/reporting/reporting.service.ts:275-279 | in double precision the rate is within 0.00005 of the exact ratio, roundoff below 10^-15 apart |
| ReportOutcomes.RatioInUnit | src/reporting/reporting.service.ts:275-279 | in double precision, taken as any order-keeping rounding exact on small integers, a ratio of at most 1 gives a rate in [0, 1] |
| ReportOutcomes.RateMayPassOne | src/reporting/reporting.service.ts:94-96 | without that condition a rate can be 2 |
| ReportOutcomes.NewJobsAreFaithful | src/reporting/reporting.service.ts:94-95 | every job row the assignment and completion workflow can produce from a new job satisfies that condition |
| ReportOutcomes.PagesConserve | src/reporting/reporting.service.ts:115-142 | the landing pages account for exactly the attributed jobs that name one |
| ReportOutcomes.ExactRatioInUnit | src/reporting/reporting.service.ts:275-279 | in exact arithmetic a rate is at most 1 iff the numerator exceeds the denominator by less than one part in 20,000 |
| ReportRules.JobCounted | src/reporting/reporting.service.ts:94-104 | what a job adds to each of the six counts |
| ReportRules.RatioRounds | src/reporting/reporting.service.ts:275-279 | a rate is the ratio to the nearest fourth decimal, halves upwards |
| ReportRules.TextIs | src/reporting/reporting.service.ts:190-193 | a text is the trimmed words, cut to the limit |
| ReportRules.KeyIs | src/reporting/reporting.service.ts:216-220 | the key names channel, source, medium and campaign in order |
| ReportRules.SourcesByLeads | src/reporting/reporting.service.ts:134-138 | sources with more leads come first, equal ones by key |
| ReportRules.PagesAreCounted | src/reporting/reporting.service.ts:115-126 | each landing page has the created, booked and completed jobs that came by it |
| ReportRules.PagesByLeads | src/reporting/reporting.service.ts:140-143 | pages with more leads come first, equal ones by path |
| ReportRules.CameByIff | src/reporting/reporting.service.ts:184-189 | which jobs come by a page |

## Left out

- FinishedSagasSettle: says nothing of a job that a step of the run breaks; where its call ends then is given exactly by `RescheduleEndsExactly`, `ConfirmEndsExactly` and `CancelEndsExactly`.
- ConfirmEnds: for a call that runs alone; `ConfirmEndsExactly` is for every interleaving with other jobs.
- MoveEndsOldOrNew: for a call that runs alone, calendar calls that work or have no effect, and a compensating write that works; `RescheduleEndsExactly` has none of these conditions.
- CancelEnds: for a call that runs alone; `CancelEndsExactly` is for every interleaving with other jobs.
- CandidatesAreOrdered: needs offsets that vary by less than three hours; every candidate is three hours long.
- DeliveredStaysIff: for runs without a replay write; `DeliveredChangesIff` names what a replay adds, a delivery in flight among it.
- DeliveriesDecide: takes each webhook as one step; `StaleReadAgreesIff` says exactly when a split webhook writes the same payment.
- RefundStaysBounded: asks that each webhook meets the total it read; `StaleRefundBoundedIff` says exactly when a stale refund stays bounded.
- Aggregate: the utm labels of a source row, which are those of the first job with its key, and the period are not modelled.
- ExactRatioInUnit: over exact reals, because the boundary itself moves with the rounding.
- RepeatedCreate: for calls that do not overlap; overlapping ones are covered by `ClosedRequestIsKept` and `RecordWritesIff`.
- The free/busy check inside confirm and reschedule: it only refuses, before anything is written.
- Instant-booking eligibility, signed slots and management tokens, customer confirm and reschedule requests.
- Idempotent creation of an SMS by request hash, consent decisions, and selection by `processDue` beyond its filter.
- Matching a webhook to its payment, its signature, and events about other payments; one payment row is followed.
- The connected account a payment is sent to, checkout recovery, payment exceptions and the payment listing.
- Reason-code lists, labels and the escalation path of routing; saving rules; postal-code and time-of-day extraction.
- Dispatch queues, assignment history and job summaries; the default routing used when no routing service is wired.
- JSON parsing of attribution and the date range check of the report.
- Controllers, guards, request validation, logging, notifications, metrics, the user interface and environment parsing.
- Intake heuristics, masking and prompts; provider wire formats; cryptography; real time-zone data.
