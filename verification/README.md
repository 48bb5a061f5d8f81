# Booking protocol

A Dafny model of how the service keeps bookings that distributors ask of hotel suppliers: the durable
booking row and its append-only lineage, and everything that acts on them at once. Workflow runs,
activities that are repeated or finish late, supplier callbacks, crashes and sweep restarts all write
to one row. The promise they share (`README.md:8` of the service) is that a booking which might have
reached the supplier never becomes FAILED. No single function establishes it, so it is proved here of
every reachable state.

`dafny verify dfyconfig.toml` checks the whole project. The layers, bottom up:

- **Entities and SQL.** `Statuses` is the transition table, `Bookings` the row and its lineage,
  `Statements` what each SQL statement does: one locked statement guards, updates, appends lineage and
  returns what it saw, so its effect, its events and its reply are the functions `RowAfter`,
  `EventsOf` and `ReplyTo`. `Replay` folds a lineage back into a row.
- **The supplier call.** `Supplier` has the byte-counting send detection of `Book` over an arbitrary
  transport that may break at any point; `SupplierKey` is the reference a booking carries.
- **The protocol.** In `Protocol` a `World` is one booking with its authorized calls and any number of
  runs, and `Exec` is one step of anybody. An arbitrary sequence of steps is an arbitrary interleaving.
  No uniqueness of runs is assumed, an answered call may be persisted by anyone at any later moment and
  any number of times, and every process may stop anywhere. `Invariant` is what every step keeps,
  `Evolution` the relation every later state stands in to an earlier one, `Guarantees` the promises.
  `Plain` tells every step over again from the row and the reply it meets, in literal statuses, words and
  events, and is proved to agree with what `Statements` and `Protocol` compute.
- **The code that takes the steps.** `Database.Db` is the database as one actor sees it: a tape says
  which steps others take before each statement and which round trips fail, before or after the
  statement ran. The methods of `Repository.Repo`, `Activities.Worker`, `Workflow.BookingWorkflow` and
  `Callback.Service` are proved for every tape. Each can only send statements that are enabled steps of
  the protocol, and each only extends a ghost trace that leads to the booking it leaves, so the
  guarantees cover them. With nobody else at work (`Solo`) and no acknowledgement lost (`Quiet`) the
  contracts give the exact result; a callback's answer is an exact function of any tape. A run's result
  is also `Workflow.RunAlone`, which knows the replies and four columns of the row and nothing of SQL,
  activities or what a run is told.
- **Edges.** `Fingerprint` and `Ambiguity` are the canonical form and exactly when it is ambiguous,
  `Create` is the whole table under concurrent creates, `Sweep` is which bookings are restarted and
  which configurations keep the sweep off live attempts.

Where the code and its documentation disagree, the model follows the code:

- FAILED is not always proof that nothing was sent. `Book` keeps one baseline, taken again by every
  connection, and Go's HTTP client follows redirects, so a request that was sent, redirected and then
  broken reads as not sent. `Supplier.HonestWhereverItBreaks` gives the exact condition (no connection
  is opened once request bytes have left), `Guarantees.HonestFailure` carries it into the main result
  as an if-and-only-if, and `Guarantees.RedirectBreaksHonesty` is the counterexample on the protocol.
- A redelivered rejection that carries a reference is refused and flagged instead of being recognised,
  because a declined booking stores no reference (`Callback.Redelivery`, an exact condition).
- Two different requests can share a fingerprint when a field contains a line break followed by a
  field's name. A request is identified exactly when its own text has one reading as trimmed fields,
  which `Ambiguity.Readings` enumerates (`Ambiguity.FingerprintIdentifiesIff`). `Ambiguity.NotRereadable`
  is a local test that suffices, `Ambiguity.MovedBoundaryCollides` its converse where one boundary moves
  between trimmed pieces, `Ambiguity.LocalTestStops` a family where only the enumeration decides, and
  `Ambiguity.RequestsCollide` a family of collisions.
- A refused callback need not contradict the row. Over every tape, failures included, a refusal is sure
  to be of something the row does not say exactly when the booking had settled on arrival or the
  assertion is a rejection with a reference (`Callback.RefusalIsFairIff`). A copy of the assertion can
  otherwise settle the booking in between: before the second write, for a booking that was PENDING on
  arrival (`Callback.RaceRefusesCopy`), or before the first, if the re-read then fails
  (`Callback.BlindRaceRefusesCopy`). As long as the re-read succeeds, only the first can happen
  (`Callback.RereadIsFairIff`).
- A run is not always left at rest. When the acknowledgement of a marker clear is lost, its retry
  reports the attempt superseded and the run ends with the booking between turns
  (`Workflow.BookingWorkflow.ApplyActivity`, `Workflow.LostClearLeavesBetweenTurns`). With nobody else
  at work and no acknowledgement lost, a run that ends without an error has brought the booking to
  rest, whatever statements never arrived (`Workflow.BookingWorkflow.Execute`).
- The startup check compares nanoseconds and the sweep's query truncates to milliseconds
  (`Sweep.NeverSweptEarlyIff`, exact; `Sweep.SubMillisecondsAreNotCovered`, a configuration).
- When an attempt is superseded inside the repository, its conflict event has no place for the
  supplier's reference (`Activities.LateReferenceKeptIff`, exact).
- `docs/RFC.md:314` has a duplicate callback append an event; the code appends none.
  `docs/RFC.md:607` has a flagged booking exit at dispatch; the code goes on to attempt
  (`Workflow.BookingWorkflow.Execute` has every unsettled booking attempted, flagged or not).
  `docs/RFC.md:295` calls `payload_digest` a hash; on refusals the code stores the reference itself.

## Model

| member | source | states |
|---|---|---|
| `Guarantees.HonestFailure` | internal/workflow/activity.go:184-199 | In every reachable state of every interleaving, a FAILED booking's authorized attempts have all ended, each in a request that could not be built and a wire nothing happened on, or in a transport error with no byte written on its last connection; and each put no request byte on any socket if and only if its transport opened no connection after request bytes |
| `Guarantees.RedirectBreaksHonesty` | internal/supplier/http.go:92-117 | The excluded transport behaviour is real: for every booking some schedule ends FAILED with one request byte sent, over a connection that was followed by a second one |
| `Guarantees.LineageRebuildsTheRow` | internal/repository/booking/transition.go:20-41 | Folding a booking's events gives exactly its status, attempt count and marker in every reachable state |
| `Guarantees.LifetimeWriteBound` | internal/repository/booking/authorize.go:57-68 | However many runs, crashes, sweeps and callbacks there are, a booking's status, attempts and marker are written at most 2b + 1 times, b being the largest budget any run carried |
| `Guarantees.LifetimeWriteBoundIsReached` | internal/workflow/workflow.go:80-112 | The bound is tight: for every budget b of at least one some schedule makes exactly 2b + 1 such writes |
| `Guarantees.WritesSpend` | internal/repository/booking/transition.go:24-32 | Every write to status, attempts or marker strictly lowers 2·(budget − attempts) + marker + unsettled, and no other step raises it |
| `Guarantees.StaleAnswersAreInert` | internal/repository/booking/transition.go:88-97 | Once an answer's recording write has run, running that statement again after any further steps of anyone changes neither row nor lineage |
| `Activities.RepeatedApplyIsInert` | internal/workflow/activity.go:158-167 | Applying a recorded answer again, after any further steps of anyone, never changes the row; it appends exactly one conflict naming the attempt and outcome, or nothing for a doubt or a failure of our own that moves the booking |
| `Guarantees.OwnershipFreezesStatus` | internal/workflow/activity.go:141-155 | While an attempt holds the marker the row has the status its answer writes from, so recording that answer always lands, leaving exactly the row and the one event that the reply and the wire dictate |
| `Guarantees.SupersededOnlyFromDoubt` | internal/repository/booking/transition.go:77-82 | A status that matches with a marker that does not can only be met from UNKNOWN, apart from a not-sent answer, whose write never looks at the status |
| `Guarantees.OutcomeIsSuppliersWord` | internal/workflow/activity.go:239-242 | A booking is CONFIRMED or REJECTED only where some reply to one of its own calls says so (an HTTP 200 or 201 with status "CONFIRMED" and the very reference on the row and no recognized decline code, or one of the four decline codes, which is the reason on the row), or a callback event says so in its own word |
| `Guarantees.EveryMoveIsAnEdge` | internal/model/status.go:30-51 | Every status change by any step, the two written directly in SQL included, is RECEIVED to PENDING, PENDING to UNKNOWN, CONFIRMED, REJECTED or FAILED, or UNKNOWN to CONFIRMED or REJECTED; every change of status, attempts or marker appends exactly one event, naming both statuses and the attempt it opened or ended |
| `Guarantees.SettledIsFinal` | internal/repository/booking/transition.go:88-97 | After settling, no sequence of steps changes status, attempts, reference or reason, sets a marker or lowers a raised flag; a reference implies CONFIRMED, and a reason is present exactly for REJECTED and FAILED |
| `Guarantees.SendCap` | internal/workflow/activity.go:106-139 | Over all runs and restarts there is exactly one call per authorized attempt, never more than the largest budget any run carried, and each sends the booking's own id and stay under the key stored at the first authorization |
| `Guarantees.GrantsAreDistinct` | internal/repository/booking/authorize.go:57-68 | Of two steps that authorize an attempt, of whichever runs, the later is given a higher number |
| `Guarantees.RefusalIsExact` | internal/repository/booking/authorize.go:87-101 | Each of the three refusals is given if and only if it is the reason; a spent budget is never reported while a marker is set |
| `Guarantees.UnreachableIsExact` | internal/workflow/activity.go:184-199 | When parking calls a booking unreachable, by whichever road the run came to park, at least the run's whole budget was authorized and every attempt ended in a transport error with no byte written on its last connection |
| `Guarantees.ParkingIsEarned` | internal/workflow/workflow.go:80-112 | Under every interleaving, a run that has come to park has its whole budget authorized, or some attempt that wrote from UNKNOWN ended because its request could not be built |
| `Guarantees.Always` | internal/repository/booking/authorize.go:49-102 | The inductive invariant holds in every state any interleaving reaches |
| `Plain.DispatchIs` | internal/repository/booking/authorize.go:19-44 | A dispatch turns an outstanding attempt into UNKNOWN with no marker and one `attempt_abandoned` event naming it, and otherwise does nothing |
| `Plain.AuthorizationIs` | internal/repository/booking/authorize.go:49-102 | An unsettled, unmarked booking under budget gets the next attempt number as its marker, PENDING if it was RECEIVED, its own key, one request event and one call for its own stay; any other is left alone |
| `Plain.RecordingIs` | internal/workflow/activity.go:219-351 | Recording an answer does to the row and the lineage what the reply and the wire say while its attempt is outstanding, and nothing afterwards |
| `Plain.UnreachableIs` | internal/workflow/activity.go:184-199 | Parking fails a PENDING booking as `supplier_unreachable` if nothing is outstanding, and otherwise leaves it alone |
| `Plain.ParkingIs` | internal/repository/booking/authorize.go:107-127 | A booking in doubt with nothing outstanding is flagged, with one event the first time only; any other is left alone |
| `Plain.FlaggingIs` | internal/repository/booking/authorize.go:132-148 | Flagging raises the flag and nothing else; a flagged row is not touched at all |
| `Plain.CallbackIs` | internal/service/booking/service.go:252-309 | A callback's write on a booking still in the status it read settles it in the word said, with that reference, or that reason or the default, lowers the flag, ends any attempt and leaves one event; otherwise nothing |
| `Plain.TheRestIs` | internal/repository/booking/transition.go:115-127 | No other step touches row or lineage, but for a refusal, which appends the one event it is given |
| `Plain.CallIs` | internal/supplier/http.go:80-126 | A call in flight may at any moment write bytes, its request's only over a connection, come back with any reply, or die |
| `Plain.RunsComeAndGo` | internal/workflow/workflow.go:48-51 | Any number of runs may be started, each with its own budget, and one that is not parking may stop anywhere |
| `Invariant.StepInv` | internal/repository/booking/transition.go:20-41 | Every step of every actor keeps the whole invariant |
| `Invariant.StatementKeepsRow` | internal/repository/booking/authorize.go:57-68 | Every statement production code issues keeps the row's shape (marker names the last attempt of an unsettled booking, RECEIVED means no attempts, reference and reason fit the status) and only evolves it lawfully, whatever the row holds by the time it runs |
| `Invariant.ShapeKept` | migrations/0001_bookings.sql:41-43 | A marker is never ahead of the attempt counter, and it freezes the status its call writes from |
| `Invariant.HonestKept` | internal/repository/booking/authorize.go:52-69 | While PENDING every attempt but the marked one is answered not-sent, and once FAILED all of them are answered unsent, after every step |
| `Invariant.VouchedKept` | internal/workflow/activity.go:262-272 | No step settles a booking as confirmed or rejected without an answer or a callback that says so |
| `Invariant.StatementReadsBack` | internal/repository/booking/transition.go:33-40 | Whatever a statement does to status, attempts and marker, the event it appends in the same statement replays to the same thing |
| `Invariant.BudgetedKept` | internal/repository/booking/authorize.go:57-68 | Attempts stay within the largest budget, and the supplier key is absent before the first attempt and the booking's own from then on |
| `Invariant.ClockedKept` | migrations/0001_bookings.sql:102-114 | `updated_at` is never ahead of the clock and never older than the authorization whose marker is set |
| `Invariant.DrivenKept` | internal/workflow/workflow.go:80-112 | A run's loop counter never exceeds the attempts authorized by more than one, and a run parks only with its budget authorized or after a request could not be built out of doubt |
| `Evolution.RunsLater` | internal/repository/booking/transition.go:24-32 | From any state satisfying the invariant, every sequence of steps keeps it and ends in a later state of the same booking: attempts and versions grow, lineage extends, answers stay, a marker that appears belongs to a later attempt |
| `Statuses.SettledIffNoExit` | internal/model/status.go:23-51 | The settled statuses are exactly those without an outgoing edge |
| `Statuses.WhatMayPrecede` | internal/model/status.go:35-51 | For each status, exactly the statuses it may be entered from; none for RECEIVED and CANCELLED, and PENDING never from UNKNOWN |
| `Supplier.Book` | internal/supplier/http.go:65-154 | The three atomics the call keeps give the verdict: a decline if and only if a response carries one of the four codes, which is the reason; a confirmation if and only if it carries none, is a 200 or 201 with status "CONFIRMED" and has a reference, which is the one returned; not-sent if and only if the transport failed with no connection, or nothing written on the last one; every posted field is the request's own, under its key |
| `Supplier.PostIsExact` | internal/supplier/http.go:66-76 | Two requests are posted alike if and only if they have the same key and the same stay |
| `Supplier.VerdictMeans` | internal/supplier/http.go:92-154 | The same, of the verdict as a function of wire and reply, with the text kept of an unclassified answer, HTTP code and message included |
| `Supplier.UnsentMeans` | internal/supplier/http.go:112-117 | A call that looks unsent put no request byte on any socket if and only if it never connected again after one |
| `Supplier.SilentIff` | internal/supplier/http.go:86-117 | Comparing the byte counter with the last baseline tells exactly whether no connection was established or not a byte was written since the last one |
| `Supplier.HonestWhereverItBreaks` | internal/supplier/http.go:86-117 | Send detection is right at every moment the transport may break if and only if no connection is opened after request bytes |
| `SupplierKey.KeyRoundTrip` | internal/supplier/supplier.go:46-51 | A canonical UUID (section 4 of RFC 9562) comes back out of its supplier key |
| `SupplierKey.KeyIs` | internal/supplier/supplier.go:46-51 | The key is the 32 hexadecimal digits of the id in their order, letters in capitals |
| `SupplierKey.KeysDiffer` | internal/supplier/supplier.go:46-51 | Different bookings have different supplier keys |
| `Database.OthersEvolve` | internal/repository/booking/transition.go:16-41 | Whatever other actors do across a round trip, the invariant holds, the booking is only later, and a run's own position is untouched |
| `Database.OthersTakeTheirSteps` | internal/workflow/activity.go:158-167 | Others may take any steps at all across a round trip, this run's own five excepted |
| `Database.Db.Query` | internal/repository/booking/transition.go:64-68 | A statement runs once on whatever the others left, or not at all; its reply describes that very state; a lost reply leaves both possible; and it counts as this actor's write exactly when it changed the row |
| `Database.LifetimeOfTrace` | internal/repository/booking/authorize.go:57-68 | The booking an actor leaves is reached by the trace its calls only ever extend, so the lifetime write bound holds of it |
| `Repository.Repo.GetByID` | internal/repository/booking/repository.go:82-84 | A row read is the booking's state at that moment; not-found is said only of a booking that does not exist |
| `Repository.Repo.Guard` | internal/repository/booking/transition.go:61-76 | The guarded statement moves exactly the row it guards; what it found tells a lost race from a superseded attempt |
| `Repository.Repo.Apply` | internal/repository/booking/transition.go:46-84 | A transition outside the table or without a marker rule sends nothing; one that takes moved exactly the row it guarded; a lost race and a superseded attempt are told apart by the state the statement saw, and a superseded answer is in the lineage before it is reported |
| `Repository.Repo.ClearMarker` | internal/repository/booking/transition.go:88-111 | Reports cleared if and only if the marker was this attempt's when the statement ran |
| `Repository.Repo.AppendRefusal` | internal/repository/booking/transition.go:115-127 | A refusal whose write arrived is in the lineage, from and to the same status, whether or not that was acknowledged |
| `Repository.Repo.Authorize` | internal/repository/booking/authorize.go:49-102 | Grants the next attempt number exactly when the row allows it, and otherwise names the reason and leaves the booking alone |
| `Repository.Repo.ResolveStaleMarker` | internal/repository/booking/authorize.go:19-44 | Returns the abandoned attempt exactly when one was outstanding, and moves the booking to the doubt it represents |
| `Repository.Repo.ParkIfUnknown` | internal/repository/booking/authorize.go:107-127 | Reports parked if and only if the booking was in doubt with nothing outstanding, already flagged or not |
| `Repository.Repo.MustExist` | internal/repository/booking/authorize.go:150-159 | Succeeds only for a booking that exists, and changes nothing itself |
| `Repository.Repo.Flag` | internal/repository/booking/authorize.go:132-148 | Succeeds only for a booking that exists; one its write reached is flagged, unless it has settled on the supplier's word since |
| `Activities.Worker.Dispatch` | internal/workflow/activity.go:62-82 | The status it returns is the booking's, and an attempt that was outstanding when it began no longer is, whatever others did meanwhile |
| `Activities.Worker.ReadBeforeAuthorizing` | internal/workflow/activity.go:388-405 | The retried read changes nothing itself, returns the booking as it is at that moment, and fails only on a missing booking or when three reads in a row failed |
| `Activities.Worker.Call` | internal/workflow/activity.go:123-132 | The supplier call sends the request its attempt was authorized for, puts exactly this transport's events on record, touches no row, and its result is the verdict on them |
| `Activities.Worker.Attempt` | internal/workflow/activity.go:86-156 | Nothing of this actor's happens on any call's wire unless its own authorization was granted and acknowledged; the answer then belongs to the attempt just authorized and writes from the status it left; a refusal or a settled booking leaves the run where its reason says |
| `Activities.Worker.Settle` | internal/workflow/activity.go:262-291 | A definitive answer persisted without an infrastructure error is the booking's outcome, with what it carried, or stands in the lineage as a conflict; either way an event names its attempt, with the code "CONFIRMED" exactly for a confirmation and "REJECTED" exactly for a decline |
| `Activities.TextsDiffer` | internal/supplier/supplier.go:14-22 | Each outcome is written in its own word, and different outcomes in different ones |
| `Activities.Worker.Clear` | internal/workflow/activity.go:295-308 | Ends the attempt without moving the booking, or has filed what came too late as a conflict with attempt, outcome and reference |
| `Activities.Worker.Move` | internal/workflow/activity.go:310-319 | Ends the attempt by moving a PENDING booking into doubt or to our own failure; losing the race changes neither the booking nor what the run is told |
| `Activities.Worker.Superseded` | internal/workflow/activity.go:361-386 | Whatever others do meanwhile, an answer that can no longer be written is kept in the lineage with its attempt, its outcome's own word and its reference |
| `Activities.Worker.Apply` | internal/workflow/activity.go:219-260 | Whatever the answer and the interference, a persist that succeeds leaves the attempt over and tells the run exactly what was answered or, where that can have come too late, that it was superseded; one for an attempt already over never writes to the row and appends at most one event; it fails only if a round trip does; on its own it comes to exactly `Alone` |
| `Activities.Worker.Park` | internal/workflow/activity.go:172-217 | Says parked only of a booking that is flagged or has settled since; with nobody else at work says it exactly of one in doubt with nothing outstanding; it does nothing while an attempt is outstanding, fails a PENDING booking as unreachable, and flags one in doubt |
| `Activities.LateReferenceKeptIff` | internal/repository/booking/transition.go:129-139 | A definitive answer that came too late is filed with its attempt, outcome and the status it found, and keeps its reference if and only if the booking had left the status the attempt wrote from |
| `Workflow.BookingWorkflow.DispatchActivity` | internal/workflow/workflow.go:53-78 | The entry read ends in the booking's status, or in an error after at least five failed round trips |
| `Workflow.BookingWorkflow.ApplyActivity` | internal/workflow/workflow.go:86-89 | A persist is retried as long as the window lasts: it gives up only after more failed round trips than that. When it reports success, a definitive answer is recorded or kept as a conflict; when nobody else acts and the acknowledgement of a marker clear is lost, it reports superseded and leaves the booking between turns |
| `Workflow.LostClearLeavesBetweenTurns` | internal/workflow/activity.go:239-252 | A cleared marker whose acknowledgement is lost leaves an unsettled booking without a marker, which for a PENDING one is not where a finished run should leave it |
| `Workflow.BookingWorkflow.Park` | internal/workflow/workflow.go:118-126 | Retried as long as the window lasts. From between turns, a park with nobody else at work and no acknowledgement lost fails a PENDING booking as unreachable and flags one in doubt, and so leaves it settled, or in doubt, flagged and free of a marker |
| `Workflow.BookingWorkflow.Turn` | internal/workflow/workflow.go:80-107 | One turn ends the run or leaves it ready for exactly the next turn or for parking; with nobody else at work and no acknowledgement lost it adds one attempt and does to the row what its reply says |
| `Workflow.BookingWorkflow.Execute` | internal/workflow/workflow.go:48-113 | A run ends whatever the supplier answers. With nobody else at work and no acknowledgement lost, whatever statements never arrived, a run that ends without an error leaves what `RunAlone` says of the row and the replies; with a budget of one or more that is settled, or in doubt, flagged and free of a marker; one left in doubt has had the whole budget unless some request could not be built; and an unsettled one with attempts to spare has been attempted, flagged or not |
| `Workflow.DoubtSpendsTheBudget` | internal/workflow/workflow.go:80-112 | Told from the replies alone, a run whose requests can all be built and that leaves its booking in doubt has authorized the whole budget and flagged it, and only a booking that never was in doubt is called failed |
| `Workflow.BrokenBuildEnds` | internal/workflow/activity.go:324-351 | Told from the replies alone, a request that cannot be built ends the run there and then: the booking fails, or keeps its doubt and is flagged |
| `Callback.Service.RecordRefusal` | internal/service/booking/service.go:279-291 | What was asserted, and the status it met, are quoted in the lineage if that one write arrived |
| `Callback.Service.Conflict` | internal/service/booking/service.go:266-277 | A contradiction of a settled booking is on record if the first of its two writes arrived and flagged if the second did, and the outcome stays |
| `Callback.Service.Unsupported` | internal/service/booking/service.go:128-138 | A status outside the vocabulary is quoted in the lineage if that write arrived; if the next one did, the booking is flagged, unless it has settled on the supplier's word since |
| `Callback.Service.WriteAgain` | internal/service/booking/service.go:173-182 | The second write, out of doubt, lands or finds a settled booking, and a refusal then goes on record and flags it |
| `Callback.Service.Retry` | internal/service/booking/service.go:163-185 | After a lost race one re-read is enough: applied, recognised, or refused on a settled row; one that had settled by the first write and is refused does not say what was asserted |
| `Callback.Service.FlagUnreferenced` | internal/service/booking/service.go:190-197 | A confirmation without a reference leaves the settled booking flagged if that write arrived, and its outcome as it was |
| `Callback.Service.AssertOutcome` | internal/service/booking/service.go:158-204 | Under any interleaving the assertion is the row's outcome, or the row already said it and nothing was written, or it is refused on a settled row, quoted with the status the first write found and flagged as far as those two writes arrived; an applied confirmation without a reference is flagged if that write arrived; a refusal out of doubt after a re-read is of something the row does not say; the answer is exactly `Asserting` of the tape |
| `Callback.Service.ApplyCallback` | internal/service/booking/service.go:108-205 | An applied "CONFIRMED" leaves the booking CONFIRMED with the reference given or none, an applied "REJECTED" leaves it REJECTED with the reason given or the default; any other word is unsupported and, if the booking was read, is always called so; one that arrives at a settled booking and is read is a duplicate if and only if the row says that very outcome and reference, and writes nothing; what is refused is on record and flagged, and an applied confirmation without a reference flagged, as far as each write arrived; past PENDING on arrival, a refusal after a re-read is not what the row says; the answer is exactly `Handling` of the tape, and alone the booking left is exactly `Handled` |
| `Callback.HandledIs` | internal/service/booking/service.go:108-205 | With nobody else at work, in the assertion's own words: which of the five answers a callback gets, the event it leaves, and what it does to the row and the flag |
| `Callback.RefusalIsFairIff` | internal/service/booking/service.go:149-183 | For a booking that was sent, over every tape, failures included: a refused assertion never is what the row says, if and only if the booking had settled on arrival or the assertion is a rejection with a reference |
| `Callback.RereadIsFairIff` | internal/service/booking/service.go:163-183 | Over every tape on which the re-read succeeds: likewise, if and only if the booking was not PENDING on arrival or the assertion is a rejection with a reference |
| `Callback.BlindRaceRefusesCopy` | internal/service/booking/service.go:166-172 | From UNKNOWN, a copy that settles the booking before the first write and a re-read that fails have an assertion refused that the row already says |
| `Callback.RaceRefusesCopy` | internal/service/booking/service.go:162-176 | From PENDING, on a tape without failures, the first write finds doubt, a copy settles the booking before the second, and an assertion is refused that the row already says |
| `Callback.CallbackLands` | internal/service/booking/service.go:164-176 | A callback's guarded write lands exactly when the status has not moved, with the asserted outcome, reference and reason and the flag lowered; otherwise the booking is in doubt or settled |
| `Callback.Redelivery` | internal/service/booking/service.go:149-154 | After a callback was applied alone and anything else happened, a copy on its own is recognised and changes nothing if and only if it confirmed or carried no reference; otherwise it is refused and flagged |
| `Callback.RedeliveryOnAnyTape` | internal/service/booking/service.go:149-156 | Once the row carries what a callback asserted, however that delivery ended, any later copy whose first read succeeds is recognised, under any interference, if and only if it confirmed or carried no reference; otherwise it is refused |
| `Callback.ContradictionIsKept` | internal/service/booking/service.go:266-277 | Refusing a contradiction flags the booking and quotes it in the lineage, and leaves status, attempts, marker and reference alone |
| `Fingerprint.Compute` | internal/model/fingerprint.go:28-49 | The loop over sorted names writes exactly the canonical text |
| `Fingerprint.TextIs` | internal/model/fingerprint.go:28-46 | That text, written out: seven labelled lines, dates first, each field trimmed |
| `Fingerprint.TrimIsCore` | internal/model/fingerprint.go:32-36 | Trimming takes the blanks off both ends of a field and nothing else: what is left is the one string that neither starts nor ends with one of the twenty-five blanks and gives the field with blanks around it |
| `Fingerprint.NamesAreSortedKeys` | internal/model/fingerprint.go:40 | The order written is the sorted order of exactly the hashed fields |
| `Fingerprint.ParseInvertsLines` | internal/model/fingerprint.go:39-45 | A parser recovers every newline-free field value from the canonical text |
| `Dates.DateIsExact` | internal/model/fingerprint.go:30-31 | Two dates are written alike if and only if they are equal |
| `Dates.DateIs` | internal/model/fingerprint.go:12-31 | A date is written as the four digits of its year, two of its month and two of its day, with dashes between |
| `Ambiguity.FingerprintIdentifiesIff` | internal/model/fingerprint.go:25-49 | A request's fingerprint is shared by no different request if and only if its own text has a single reading as trimmed fields, a computable condition on that request alone |
| `Ambiguity.NotRereadable` | internal/model/fingerprint.go:39-45 | It has a single reading if, in the last four lines, no field contains the text that starts its own line, or that of the next line with no space before it |
| `Ambiguity.MovedBoundaryCollides` | internal/model/fingerprint.go:39-45 | Conversely, wherever one such text splits a field or its neighbour into trimmed pieces, some different request has the same fingerprint |
| `Ambiguity.LocalTestStops` | internal/model/fingerprint.go:30-45 | Where a field is split at such a text and a space follows, the local test gives up although the trim leaves the request a single reading |
| `Ambiguity.AmbiguousIffImitated` | internal/model/fingerprint.go:39-45 | Of any seven strings in place of the values, dates and trimming aside: some other seven give the same text if and only if a field, or the one before it, contains the text that starts the field's own line |
| `Ambiguity.NewlineFreeIsOnlyReading` | internal/model/fingerprint.go:39-45 | A request whose fields contain no newline is identified by its fingerprint |
| `Ambiguity.FingerprintIsExact` | internal/model/fingerprint.go:25-49 | For a request with a single reading, fingerprints agree with any other request's if and only if dates and trimmed fields do |
| `Ambiguity.RequestsCollide` | internal/model/fingerprint.go:40-45 | A family of different requests with one fingerprint |
| `Create.CreateIsFirstWriteWins` | internal/repository/booking/repository.go:47-80 | Over any interleaving of creates and of steps on every booking, the table is the map from (distributor, key) to the first create that claimed it |
| `Create.CreatedOnce` | migrations/0001_bookings.sql:33 | Of all creates that ever carry one key, at most one makes a booking |
| `Create.SupplierKeysAreUnique` | migrations/0001_bookings.sql:50-52 | No two bookings store the same supplier key, so the unique index never refuses a write |
| `Create.TableRuns` | internal/repository/booking/repository.go:47-80 | Bookings are never lost, keep their identity and the fingerprint of their own fields, and each keeps its own invariant while others are created and driven |
| `Create.Creator.GetByKey` | internal/repository/booking/repository.go:86-90 | Returns the booking that holds the key, and not-found only of a key nobody holds |
| `Create.Creator.InsertOrLoad` | internal/repository/booking/repository.go:47-80 | Created is said only of a key that was free, with the row and the event just inserted; otherwise the holder's row comes back; the read after a lost race never finds nothing; a lost round trip is an error, whether or not the insert ran |
| `Create.Creator.Create` | internal/service/booking/service.go:46-90 | A new booking is RECEIVED, never attempted, unflagged, under the request's own id, distributor, key, stay and fingerprint, with one created event. A request that differs from the key holder's only in blanks at the ends of its fields is replayed with that booking and never refused; a replay returns the booking that holds the key, which was made by the same request, such blanks aside, if this one has a single reading; a key is refused only for a booking made by a different one |
| `Sweep.SweepCoverage` | internal/repository/booking/repository.go:122-134 | A booking where a finished run leaves bookings is never eligible; every other one is, if and only if it has been quiet for longer than its own threshold (marker, received or idle), cut to whole milliseconds |
| `Sweep.NeverSweptEarlyIff` | internal/repository/booking/repository.go:126-134 | No reachable booking is swept while its marker is younger than a hold if and only if the truncated marker threshold covers the hold |
| `Sweep.Validate` | config/config.go:145-185 | Startup reports no error if and only if each of the ten durations is positive, the budget is at least one, shutdown outlasts the supplier's deadline, the persist window outlasts that deadline plus fifteen seconds, and the marker threshold both together plus five sweep intervals |
| `Sweep.LiveAttemptsAreNotSwept` | config/config.go:70-74 | With an accepted whole-millisecond configuration and queue latency under five sweep intervals, no booking whose marker owner may still be calling or persisting is eligible |
| `Sweep.SubMillisecondsAreNotCovered` | config/config.go:179-183 | An accepted configuration finer than a millisecond can have a live attempt swept |

## Left out

- Activities.Worker.Settle: the free text of conflict reasons is a fixed stand-in, in `recordSupersededAttempt` (which prints a pointer), in `superseded` and in callback refusals; attempt, outcome and reference are modelled.
- Callback.Service.ApplyCallback: a refusal's event carries the status the callback found, as in the code, which the row may have left by the time it is filed; signalling the workflow afterwards is a wake-up hint and is not modelled.
- Workflow.BookingWorkflow.Execute: convergence is claimed with nobody else at work, since another run's outstanding attempt ends this one by design; `Guarantees` covers the states in between.
- Workflow.BookingWorkflow.ApplyActivity: the persist window is a number of retries chosen by the caller, not a duration.
- Workflow.BookingWorkflow.Park: the wait for a signal or a timer after parking touches no state, and `delay` only spaces attempts out.
- Sweep.LiveAttemptsAreNotSwept: takes the time a statement runs as its clock reading, while PostgreSQL's `now()` is the transaction's start, earlier by any wait for the row lock.
- Sweep.SweepCoverage: eligibility only. The oldest-first limit of `FindStale` can keep choosing the same bookings, so nothing says each is eventually reached; the thresholds' own `Validate` is subsumed by taking them non-negative.
- Supplier.Book: the socket write and the counter's increment are one step; JSON encoding and decoding are inputs (an encoding or building failure, a decoded body), and the posted body is the fields before encoding.
- Supplier.CountingConn.Write: takes the bytes that reached the socket as given, because the wrapped connection's own count and error, a short write among them, are what the transport history already records.
- Create.Creator.Create: the distributor comes from the credential, and the id generator's failure, the workflow start and the duplicate-suspect report (`FindPriorByFingerprint`) are left out; the constraint that a stay is positive is left out, so an insert that would break it is taken as one that lands.
- Create.Creator.InsertOrLoad: takes bookings that carry the fingerprint of their own fields, because `Create`, the only caller, hands it no other.
- Fingerprint.Compute: SHA-256 is taken as injective, so the canonical text stands for the hash; years outside 0 to 9999 and dates outside UTC are excluded by the date type; strings are sequences of characters, not UTF-8 bytes.
- Request ids, log lines, `occurred_at`, `created_at` and the global event sequence: lineage is one sequence per booking, in the order its row's lock gives.
- Integer widths: attempts and versions are unbounded.
- Parsing a booking id: ids arrive parsed, so the malformed-id error of each activity is not there.
- Cancelled bookings and the edges RECEIVED to FAILED and UNKNOWN to FAILED are in the table, and no production path takes them; an operator's manual repair is not a step.
- Temporal's mechanics are the steps a run may take: start at any time, an attempt at most once, every other activity at least once, stop anywhere.
- PostgreSQL locking: each statement is atomic.
- REST handlers, authentication, logging, wiring, environment parsing, migrations as a procedure, the mock supplier and the `Events` reader.
