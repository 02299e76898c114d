# CamaraSim: payments, timestamps, authorization, and the parsers beside them

A model of the stateful and arithmetic parts of the CAMARA simulator, and proofs about it. Apart from
the counterexamples (`SinkUrl.ColonHostExample`, `Timestamps.YearTenThousandSortsFirst`, and a losing
schedule for each exposed request in `PaymentPromises.OvertakenPrepareLosesItsEvent`), one ordinary
phone number and two known hash values, every theorem is about all inputs, all runs or all interleavings; there are no bounds and
no fuel.

**Carrier Billing.** `PaymentStore` holds the three maps (payments, pending OTP validations, notify
targets): once as a function `Apply` from a call to a new store and an answer, and once as the class
`PaymentStores` that edits the maps in place and is proved against `Apply`. On top of it the payment
handlers appear at three grains:

- `PaymentLocks`: each store call takes its lock, works and releases in separate steps, validation
  nests the payments lock inside the pending lock, and any number of handlers interleave;
- `PaymentHandlers`: each store call is one step, and any number of handlers interleave. Create is two
  store or delivery steps, prepare up to four, so its windows between calls are visible;
- `PaymentService`: each handler runs to its end before the next begins, as a class.

`PaymentService` is a run of `PaymentHandlers` with one thread, and its class carries the history of what
it served, so every theorem about such runs reaches a caller of the class. Every run of `PaymentLocks` is
abstractly a run of `PaymentHandlers`; between two lock operations the four guarantees that hold at every
instant carry over (`GuaranteesBetweenLocks`), and once no handler is in flight the two states are equal,
so the rest does too (`QuietRunIsAtomic`, `QuietGuarantees`).

`Otp` gives the answer to every validation call as a function of the calls before it, and
`PaymentValidation` carries that to the interleaved handlers, where the registered code and attempts are
those of the payment's own prepare request.

`PaymentHistory` is the reference the stores are held to: what a payment's record is, what its sink has
been told, and what every confirmation, cancellation and read is answered, as functions of the requests
and calls made so far, written without the store's own operations.

*A promise that does not hold.* The comments on the notify-target store and on the handlers
(store.rs:280-289, v0_5.rs:707-713, 815-819) say that exactly one terminal event fires for a settled
reservation that gave a sink. That fails: prepare inserts the payment (v0_5.rs:523) before it stashes
the sink (v0_5.rs:545), and a confirm or cancel served between the two finds no sink to take. The event
is never sent and the sink stays in the map for good. The confirming client need not guess the id: the
payment is in every listing from v0_5.rs:523 on, and the reserved event carries it before v0_5.rs:545.
Three conditions say when the promise is kept, the first and the last exactly:

- for a run: iff no handler looked for the sink before prepare had stashed it
  (`PaymentDelivery.NotifiedIffNeverTakenEarly`);
- for a payment: it is kept if nobody confirms or cancels that one payment before its prepare handler has
  finished, whatever is done to other payments (`PaymentDelivery.PatientRunsNotifyExactlyOnce`);
- for a request, under every interleaving: iff it is a create, or its phone number needs a code
  (`PaymentPromises.AlwaysNotifiedIffSure`). Every other reservation with a sink has a losing schedule.

**Calendar, timestamps, list.** `Calendar` proves that Hinnant's closed form, with Rust's truncating
division written out, counts the days of the Gregorian calendar and is a bijection onto its dates.
`Timestamps` proves that the rendered strings sort as the instants do, exactly until the year 9999
ends: the doc comment on `sort_key` (v0_5.rs:1089-1091) calls the format fixed-width, but one second
later it is 21 characters and sorts first. `PaymentList` proves that pages partition the store whatever
order the map hands the payments over in, and that saturating arithmetic never shows.

**Authorization server.** `AuthServer` is authorization codes with PKCE, CIBA requests and the three
grants, as a function and as a class over the stores; `AuthGuarantees` traces every token of every run
to the one event that entitles it. `AuthAnswers` says what each request is answered, and with which
claims, from the requests alone: the letters of the login hint, the fields of the request that opened a
code or a backchannel request, and what was redeemed or polled since. `Jwt` is issuing and verifying, `PurposeScopes` the purpose grammar.

**Text and hashing.** `SinkUrl` (parser against printer), `Uuid` (two recognisers and the minter; the
comment on the registration API's recogniser says lowercase, the code takes either case), `Bindings`
(binding ids and the bind and delete handlers), `HashSeed` (the FNV-1a fold), `Identifiers`.

Two more laws hold under an exact condition: a sink target survives printing and parsing
iff its host is non-empty and free of `/`, its path starts with `/`, and its host is free of `:` when
the port is elided; a bind is refused as a duplicate iff that triple is bound, given that no two triples
accepted in the run share a hash.

SHA-256, S256, RSA, base64url and JSON text are function parameters. What is assumed of them is written
as `IsLawful`, `IsInjective`, `CollisionFree` or `IsUnforged` in the `requires` of the lemma that uses
it. The clock is an input of every request that reads it, and is not assumed to move forward.

## Model

| member | source | states |
|---|---|---|
| Calendar.EraIsFloor | src/apis/carrier_billing/v0_5.rs:1199-1202 | the truncating quotient with its negative correction is floor division for every integer, so the day of era is in [0, 146096] |
| Calendar.YearOfEraRange | src/apis/carrier_billing/v0_5.rs:1203-1205 | year of era in [0, 399], day of year in [0, 365], and day 365 only in leap years |
| Calendar.MonthRange | src/apis/carrier_billing/v0_5.rs:1206-1207 | month index in [0, 11], and the day lies inside that month |
| Calendar.CivilInvertsDays | src/apis/carrier_billing/v0_5.rs:1199-1210 | every day number yields a date of the Gregorian calendar, whose independently computed day number is the one given |
| Calendar.DaysInvertCivil | src/apis/carrier_billing/v0_5.rs:1199-1210 | every Gregorian date is reached: with the row above, a bijection |
| Calendar.CivilCountsDays | src/apis/carrier_billing/v0_5.rs:1197-1210 | day 0 is 1970-01-01, and day n+1 is the calendar successor of day n by month lengths and the 4/100/400 leap rule |
| Calendar.CivilOrdersDays | src/apis/capabilities_and_restrictions/vwip.rs:353-366 | an earlier day number is an earlier date, both ways (second copy of the same function) |
| Calendar.CivilFromDays64 | src/apis/carrier_billing/v0_5.rs:1199-1210 | the same steps in i64 and u64 compute that date; no step but the first addition can overflow |
| Timestamps.TimestampNamesInstant | src/apis/carrier_billing/v0_5.rs:1186-1195 | in years 0 to 9999 the string can be read back: separators in place, a date of the calendar, hour, minute and second in range, and together exactly the second that was rendered |
| Timestamps.Rfc3339Utc | src/apis/carrier_billing/v0_5.rs:1186-1210 | for every i64 second count the machine-integer formatter and the calendar it calls compute the unbounded-integer timestamp, with no step leaving its machine type |
| Timestamps.FixedWidth | src/apis/carrier_billing/v0_5.rs:1186-1195 | in years 0 to 9999 a timestamp is exactly 20 characters (section 5.1 of RFC 3339) |
| Timestamps.StringsSortAsInstants | src/apis/carrier_billing/v0_5.rs:1089-1097 | in years 0 to 9999 an earlier instant has the lexicographically smaller string, both ways |
| Timestamps.SortingLimit | src/apis/carrier_billing/v0_5.rs:1089-1097 | the timestamps of any period that starts in years 0 to 9999 all sort as instants iff its end is at most 253402300799 |
| Timestamps.YearTenThousandSortsFirst | src/apis/carrier_billing/v0_5.rs:1189-1195 | the second after 9999-12-31T23:59:59Z does not sort after it |
| PaymentList.SortSorts | src/apis/carrier_billing/v0_5.rs:1075-1076 | sorting yields a strictly key-ordered rearrangement of the payments |
| PaymentList.SortedIsUnique | src/apis/carrier_billing/v0_5.rs:1069-1076 | there is only one such rearrangement, whatever the sorting algorithm |
| PaymentList.ListIgnoresMapOrder | src/apis/carrier_billing/v0_5.rs:1069-1080 | any two orders of the same payments are listed alike |
| PaymentList.ApplyListParams | src/apis/carrier_billing/v0_5.rs:1075-1087 | the saturating i64 window is the unbounded-integer window of the ordered list, for every page and page size from 1 |
| PaymentList.PagesAreConsecutive | src/apis/carrier_billing/v0_5.rs:1081-1086 | the first n pages laid end to end are the first n·perPage payments |
| PaymentList.PagesPartitionTheStore | src/apis/carrier_billing/v0_5.rs:1069-1087 | all pages laid end to end are the whole store in order, later pages are empty, and desc is asc reversed |
| PaymentList.ListOrder | src/apis/carrier_billing/v0_5.rs:1089-1097 | the asc order is by date and then by id, each in the lexicographic order spelled out at the first difference |
| PaymentList.ListIsChronological | src/apis/carrier_billing/v0_5.rs:1089-1097 | payments stamped by rfc3339_utc in four-digit years are listed in the order of their creation instants |
| PaymentHistory.RunKeepsOrigin | src/apis/carrier_billing/v0_5.rs:349-364 | every handler in flight pursues what the request that minted its payment asked for |
| PaymentHistory.RunKeepsLedger | src/apis/carrier_billing/store.rs:93-291 | after every run each stored payment is the record its request and its history call for: id, amount and creation date of the request, status and authorization id by what happened, payment date that of the charge or of the confirm call that moved it |
| PaymentHistory.EveryAnswer | src/apis/carrier_billing/store.rs:42-160 | the answer to every confirm, cancel, retrieve and list at any point of any run, from the payment's history |
| PaymentHistory.RunAnnounces | src/apis/carrier_billing/v0_5.rs:479-549 | at every instant of every run the announcements of a payment are one, to the sink its prepare request gave, pending-validation iff the number ends in 888 and reserved otherwise, or none if it gave no sink, was not prepared, or is not that far |
| PaymentHistory.QuietAnnouncements | src/apis/carrier_billing/v0_5.rs:479-549 | with no handler in flight: exactly that one announcement for each prepared payment with a sink, and none for any other |
| PaymentHistory.EventTellsFate | src/apis/carrier_billing/v0_5.rs:369-382 | every other event is completed for a charged payment, cancelled for a released one or denied for a refused one, sent to the sink its request gave |
| PaymentStore.PaymentStores.InsertPayment | src/apis/carrier_billing/store.rs:31-36 | replaces the entry of that id in the payments map and nothing else |
| PaymentStore.PaymentStores.ConfirmPayment | src/apis/carrier_billing/store.rs:93-110 | reserved becomes succeeded with a payment date; every other state, and an unknown id, changes nothing and says why; `PaymentHistory.RunKeepsLedger` and `EveryAnswer` say which date and which answer |
| PaymentStore.PaymentStores.CancelPayment | src/apis/carrier_billing/store.rs:143-160 | reserved becomes cancelled; every other state, and an unknown id, changes nothing and says why |
| PaymentStore.PaymentStores.ValidatePending | src/apis/carrier_billing/store.rs:237-275 | editing, removing and settling in place amount to the one-step judgement of the authorization id and code |
| PaymentStore.PaymentStores.SettleTo | src/apis/carrier_billing/store.rs:277-291 | sets the status and drops the validation info, or does nothing for a missing payment |
| PaymentStore.PaymentStores.TakeNotifyTarget | src/apis/carrier_billing/store.rs:332-340 | answers the target and removes it, or answers none and changes nothing |
| Otp.CallReflects | src/apis/carrier_billing/store.rs:237-275 | any one call, of any kind, keeps the pending entry equal to the budget minus the attempts made |
| Otp.PendingIsFunctionOfAttempts | src/apis/carrier_billing/store.rs:237-275 | over any history the pending entry is a function of the codes presented with the right authorization id |
| Otp.EveryAnswer | src/apis/carrier_billing/store.rs:209-275 | the answer to every validation at any point of any history: first right code within the budget validates, else the last denies, later calls find nothing pending, wrong ids cost nothing |
| PaymentValidation.RunTracks | src/apis/carrier_billing/store.rs:209-291 | after every interleaved run the stores hold what is left of the three attempts, and no handler can register that payment again |
| PaymentValidation.RegisteredAsPromised | src/apis/carrier_billing/v0_5.rs:458-508 | whatever is registered for a payment is the authorization id minted, and the code derived from the phone number, by its own prepare request, with three attempts |
| PaymentValidation.EveryValidationAnswer | src/apis/carrier_billing/v0_5.rs:583-655 | the answer to a validation call at any point of any interleaved run: unknown, not yet registered, or as the calls since its registration decide, with no assumption on the calls in between |
| Identifiers.OrdinaryNumber | src/apis/carrier_billing/v0_5.rs:434-448 | a number that passes the E.164 and reserved-suffix checks and needs no code, so the losing schedule is reachable by a client |
| Identifiers.OtpCodeOfValidNumber | src/apis/carrier_billing/v0_5.rs:858-866 | for every valid number the code is six digits and is the number's own tail, zero-padded when it has only five digits |
| PaymentInvariant.BeginKeeps | src/apis/carrier_billing/v0_5.rs:349-362 | minting ids and starting a handler keeps the twelve-part invariant |
| PaymentInvariant.CallKeeps | src/apis/carrier_billing/v0_5.rs:458-549 | every store call of every handler keeps it |
| PaymentInvariant.DeliverKeeps | src/apis/carrier_billing/v0_5.rs:498-505 | every delivery keeps it |
| PaymentInvariant.CallMovesOn | src/apis/carrier_billing/store.rs:93-160 | no store call loses a payment or changes one except along a status edge |
| PaymentInvariant.CallConserves | src/apis/carrier_billing/store.rs:326-340 | a store call neither copies nor drops a sink: one place holds it until it is spent on one terminal event |
| PaymentInvariant.RunKeeps | src/apis/carrier_billing/v0_5.rs:316-856 | the invariant holds after every interleaved run of any number of handlers |
| PaymentGuarantees.StoresAgreeWhenQuiet | src/apis/carrier_billing/v0_5.rs:353-362 | with no handler in flight: pending entry iff pending_validation iff validation info, equal authorization ids, 1 to 3 attempts left, payment date iff succeeded |
| PaymentGuarantees.PendingInsideAwaiting | src/apis/carrier_billing/v0_5.rs:477-508 | at every instant, also inside a running prepare, the pending map lies inside the payments awaiting validation |
| PaymentGuarantees.SnapshotHasDistinctIds | src/apis/carrier_billing/store.rs:50-60 | in every reachable state a listing of the store has distinct payment ids, as the page theorems ask |
| PaymentGuarantees.EveryStepIsAnEdge | src/apis/carrier_billing/store.rs:93-160 | each step leaves a payment as it was or moves its status along one of four edges |
| PaymentGuarantees.HistoryFollowsEdges | src/apis/carrier_billing/store.rs:237-291 | over any run statuses only move along the edges, and a settled payment never changes again |
| PaymentGuarantees.AtMostOneWin | src/apis/carrier_billing/store.rs:93-160 | of all confirm and cancel calls ever made on one id at most one succeeds |
| PaymentGuarantees.TerminalEventsAgree | src/apis/carrier_billing/v0_5.rs:706-725 | under every interleaving: at most one terminal event a payment, naming the status it settled in, to the sink given for it |
| PaymentGuarantees.SinkSpentOrKept | src/apis/carrier_billing/store.rs:280-340 | with no handler in flight a given sink was spent on one terminal event iff it is no longer in the notify map |
| PaymentDelivery.StepTells | src/apis/carrier_billing/v0_5.rs:498-549 | one step keeps a settled payment told, or about to be, iff that step does not look for a sink still to be stashed |
| PaymentDelivery.NotifiedIffNeverTakenEarly | src/apis/carrier_billing/v0_5.rs:523-549 | exactly one terminal event iff no handler looked for the sink before prepare had stashed it |
| PaymentDelivery.PatientRunsNotifyExactlyOnce | src/apis/carrier_billing/v0_5.rs:706-725 | exactly one terminal event for a settled payment if no confirm or cancel of that payment overtakes its prepare, whatever happens to other payments |
| PaymentDelivery.OneAtATimeIsNeverEarly | src/apis/carrier_billing/v0_5.rs:619-645 | handlers served one at a time never look too early |
| PaymentPromises.SureRequestsNotifyExactlyOnce | src/apis/carrier_billing/v0_5.rs:458-513 | a create, or a prepare whose number needs a code, gets exactly one terminal event under every interleaving, however impatient the clients |
| PaymentPromises.OvertakenPrepareLosesItsEvent | src/apis/carrier_billing/v0_5.rs:523-545 | for every other prepare with a sink: a schedule in which another client learns the id from a listing, charges the payment, and its terminal event is lost and its sink leaks |
| PaymentPromises.AlwaysNotifiedIffSure | src/apis/carrier_billing/store.rs:280-289 | a request that gives a sink is sure of exactly one terminal event under every interleaving iff it is a create or its number needs a code |
| PaymentLocks.MapsAreGuarded | src/apis/carrier_billing/store.rs:31-340 | each of the three maps is only ever written by a thread that holds that map's lock |
| PaymentLocks.PendingCallRefines | src/apis/carrier_billing/store.rs:237-275 | a validation that needs one lock only takes effect at its read or decrement |
| PaymentLocks.NestedCallRefines | src/apis/carrier_billing/store.rs:237-291 | a validation that nests both locks takes effect at its look or settle, for every state of the other threads |
| PaymentLocks.HiddenStepStutters | src/apis/carrier_billing/store.rs:256-259 | taking and giving back locks, and removing an entry about to be settled, change nothing abstractly |
| PaymentLocks.LockStepRefines | src/apis/carrier_billing/store.rs:93-160 | one step at lock granularity is one atomic step of the same thread or none |
| PaymentLocks.LockRunRefines | src/apis/carrier_billing/store.rs:209-291 | every run at lock granularity is a run of atomic store calls |
| PaymentLocks.GuaranteesBetweenLocks | src/apis/carrier_billing/store.rs:93-291 | between any two lock operations: pending inside awaiting, at most one win, at most one terminal event, agreeing with status and sink |
| PaymentLocks.QuietRunIsAtomic | src/apis/carrier_billing/store.rs:93-340 | with no handler in flight a run at lock granularity has reached exactly the state of its atomic run |
| PaymentLocks.QuietGuarantees | src/apis/carrier_billing/store.rs:93-340 | so at lock granularity too: the maps agree, a sink is spent or kept, and exactly one terminal event iff the sink was never looked for early |
| PaymentLocks.NoDeadlock | src/apis/carrier_billing/store.rs:220-222 | in every reachable state, while some handler is in flight, some handler in flight is not blocked |
| PaymentLocks.MovesAreProgress | src/apis/carrier_billing/store.rs:220-222 | a handler that is not blocked comes strictly closer to its end; a blocked one changes nothing |
| PaymentService.ServingIsRun | src/apis/carrier_billing/v0_5.rs:316-856 | serving requests one after another is a run of the interleaved system |
| PaymentService.ServedIsConsistent | src/apis/carrier_billing/v0_5.rs:353-549 | after any sequence of whole handlers the three maps agree for every id, and a settled payment that gave a sink had exactly one terminal event |
| PaymentService.PaymentHandlerService.AlwaysConsistent | src/apis/carrier_billing/v0_5.rs:353-549 | a caller of the class may rely on the row above between any two calls |
| PaymentService.PaymentHandlerService.Create | src/apis/carrier_billing/v0_5.rs:349-382 | the body in place ends where the create thread ends when it runs alone |
| PaymentService.PaymentHandlerService.Prepare | src/apis/carrier_billing/v0_5.rs:450-551 | the same for both branches of prepare; `PaymentHistory` says what is stored and announced there |
| PaymentService.PaymentHandlerService.Validate | src/apis/carrier_billing/v0_5.rs:605-645 | the same for validate, with its answer |
| PaymentService.PaymentHandlerService.Confirm | src/apis/carrier_billing/v0_5.rs:704-725 | the same for confirm, with its answer; `PaymentHistory.RunKeepsLedger` says which date is stamped |
| PaymentService.PaymentHandlerService.Cancel | src/apis/carrier_billing/v0_5.rs:810-831 | the same for cancel, with its answer |
| Pkce.ConstantTimeEq | src/auth/codes.rs:98-110 | the accumulated difference is zero iff the byte strings are equal |
| AuthServer.PkceS256Matches | src/auth/codes.rs:90-96 | accepts iff the transformed verifier is the challenge |
| AuthServer.AuthStores.Redeem | src/auth/codes.rs:82-88 | the code is gone afterwards whether or not it was there, and its entry is answered |
| AuthServer.AuthStores.PollRequest | src/auth/ciba.rs:139-170 | only approval and expiry remove the request; every other answer leaves the store alone |
| AuthServer.AuthStores.HandleAuthorize | src/auth/authorize.rs:55-146 | the handler in place answers and changes state as the server step does, refusals in source order; `AuthAnswers.AuthorizeAnswer` says what that is |
| AuthServer.AuthStores.HandleBcAuthorize | src/auth/ciba.rs:192-263 | likewise for the backchannel endpoint; `AuthAnswers.BcAuthorizeAnswer` and `RequestIsStored` say what that is |
| AuthServer.AuthStores.HandleToken | src/auth/token.rs:79-297 | likewise for the token endpoint with its three grants; `AuthAnswers` says what each is answered |
| AuthServer.AuthStores.Handle | src/auth/token.rs:79-106 | any one request in place, recorded in the history that the run theorems speak of |
| AuthAnswers.AuthorizeAnswer | src/auth/authorize.rs:55-168 | exactly which authorization requests are granted a code, and how each other one is refused, in terms of its own characters |
| AuthAnswers.BcAuthorizeAnswer | src/auth/ciba.rs:192-247 | the same for backchannel requests |
| AuthAnswers.ClientCredentialsAnswer | src/auth/token.rs:109-139 | the same for a client's own token, with every claim it gets |
| AuthAnswers.IncompleteRequests | src/auth/token.rs:91-106 | what a token request lacking something is told, in source order, with nothing changed |
| AuthAnswers.CodeIsStored | src/auth/codes.rs:66-88 | a granted code is stored, with its request's fields, iff no complete redemption of it was made since |
| AuthAnswers.RedemptionAnswer | src/auth/token.rs:154-227 | the answer to every complete redemption in every run: a token with these claims iff it is the first, client and redirect URI are the request's, S256(verifier) is its challenge and 600 s have not passed; else invalid grant (section 4.6 of RFC 7636) |
| AuthAnswers.RequestIsStored | src/auth/ciba.rs:125-170 | a backchannel request is stored iff its owner has not been answered with a token or come too late since |
| AuthAnswers.PollAnswer | src/auth/ciba.rs:110-170 | the answer to every poll in every run, from the letters of the hint of the request it polls, its client, its age and the polls since, with every claim of the token granted (section 11 of OpenID Connect CIBA Core 1.0) |
| AuthAnswers.RedeemedTokenReadsBack | src/auth/token.rs:226-358 | the token got by redeeming a code verifies for an hour and reads there, field by field, as the two requests called for |
| AuthAnswers.PolledTokenReadsBack | src/auth/token.rs:274-358 | the same for the token got by polling |
| AuthGuarantees.ServeKeeps | src/auth/token.rs:79-297 | every request keeps the invariant on codes, requests, tokens and their history |
| AuthGuarantees.RunKeeps | src/auth/authorize.rs:55-146 | the invariant holds after every run of authorize, bc-authorize and token requests |
| AuthGuarantees.StoresAreGuarded | src/auth/codes.rs:60-64 | between any two requests the stores satisfy that invariant, whatever was served before |
| AuthGuarantees.CodeTokenHasOneAuthorization | src/auth/token.rs:154-227 | every code token traces to exactly one earlier authorization with its client, redirect URI, scope, audience and challenge = S256(verifier) (section 4.6 of RFC 7636), under 600 s old |
| AuthGuarantees.CodeYieldsOneToken | src/auth/token.rs:206-210 | no code ever yields two tokens |
| AuthGuarantees.RedemptionSpendsTheCode | src/auth/token.rs:206-222 | a redemption that reaches the store consumes the code even when it fails; after any further requests it is refused |
| AuthGuarantees.GoneForGood | src/auth/codes.rs:66-88 | an id that has left a store never comes back |
| AuthGuarantees.CibaTokenHasOneRequest | src/auth/token.rs:244-297 | every CIBA token traces to exactly one backchannel request of its own client, unexpired, whose hint spells neither `denied` nor `pending` (section 10 of OpenID Connect CIBA Core 1.0) |
| AuthGuarantees.RequestYieldsOneToken | src/auth/ciba.rs:142-170 | no auth_req_id ever yields two tokens |
| AuthGuarantees.PollFollowsHint | src/auth/ciba.rs:110-170 | in every run the answer to the owner's poll is told from the event that opened the request: the letters of its hint, its time plus 120 s, its scope and audience, and whether it is still stored |
| AuthGuarantees.RefusedPollsLeaveNoTrace | src/auth/ciba.rs:152-162 | a poll refused for any reason but expiry (foreign client, pending, denied, unknown) can be cut out of any run without changing the final state |
| AuthGuarantees.PolledRequestIsGone | src/auth/ciba.rs:155-169 | after approval or expiry every later poll by anyone is refused and changes nothing |
| AuthGuarantees.HexDigitsDenote | src/auth/token.rs:417-422 | the hex digits of a token id denote the number they were made from, in lower case |
| AuthGuarantees.TokensAreUnique | src/auth/token.rs:417-422 | no two tokens of any run share a jti, and so no two are the same string |
| AuthGuarantees.GrantedPurposesAreWellFormed | src/auth/token.rs:131-138 | whatever the grant, a `dpv:` scope of an issued token is in the purpose grammar |
| AuthGuarantees.AcceptedPurposesAreWellFormed | src/auth/verify.rs:87-100 | a token the verifier accepts was issued by a grant of this server, and its `dpv:` scopes are in the grammar |
| PurposeScopes.CheckDecidesGrammar | src/auth/purpose.rs:44-67 | the check accepts a `dpv:` token iff it is in dpv:[A-Za-z0-9]+#[A-Za-z0-9._:-]+ |
| PurposeScopes.GrammarSpelledOut | src/auth/purpose.rs:25-34 | that grammar, letter by letter |
| PurposeScopes.RefusalNamesLeftmost | src/auth/purpose.rs:75-82 | a refusal names the leftmost offender, and there is none iff every token is acceptable |
| PurposeScopes.ValidateIsCompositional | src/auth/purpose.rs:75-82 | joining two scopes by a space checks left then right, and grants the union |
| PurposeScopes.ValidScopeGrantsGrammar | src/auth/verify.rs:88-90 | a scope that passed the gate grants only well-formed purposes |
| Jwt.SegmentsOfJwt | src/auth/token.rs:347-358 | an encoded token splits into exactly its three segments |
| Jwt.IssueThenVerify | src/auth/verify.rs:317-390 | an issued token verifies, with exactly its claims, iff now < iat + 3600, aud and iss match; otherwise the first failing check is the one reported (section 4 of RFC 9068) |
| Jwt.AcceptedIff | src/auth/verify.rs:289-390 | a token is accepted, with these claims, iff it has three segments, an RS256 access-token header in any case, a signature that verifies, and claims that are unexpired, begun, for this audience and from this issuer |
| Jwt.AcceptedWasIssued | src/auth/verify.rs:317-390 | an unforged token that is accepted carries exactly the claims of an issued one |
| Jwt.IssuedIsUnforged | src/auth/token.rs:321-358 | issued tokens meet the unforgedness assumption of the row above |
| SinkUrl.ParsedIffSaid | src/apis/carrier_billing/notifications.rs:412-443 | a sink is accepted as a target iff it says so: scheme, host, a readable port or 443 for https and 80 for http, a path or `/` |
| SinkUrl.ParsedShape | src/apis/carrier_billing/notifications.rs:417-443 | every successful parse has a non-empty host without `/` and a path starting with `/` |
| SinkUrl.PrintThenParse | src/apis/carrier_billing/notifications.rs:295-306 | parsing undoes printing for exactly the printable targets, default-port elision included |
| SinkUrl.ParseThenPrint | src/apis/carrier_billing/notifications.rs:417-443 | printing what was parsed parses to the same target iff no elided port follows a host with a colon |
| SinkUrl.ColonHostExample | src/apis/carrier_billing/notifications.rs:430-433 | a sink that is accepted but does not survive the trip |
| Uuid.RecognisersAgree | src/apis/application_endpoint_discovery/vwip.rs:516-526 | the split-based and the positional recogniser accept exactly the same strings |
| Uuid.CaseDoesNotMatter | src/apis/application_endpoint_registration/vwip.rs:600-607 | an accepted string stays accepted with any hex digit, of either case, anywhere |
| Uuid.RenderInjective | src/apis/application_endpoint_registration/store.rs:148-151 | different sixteen bytes render as different identifiers |
| Uuid.RenderedByte | src/apis/application_endpoint_registration/store.rs:148-151 | each of the sixteen bytes stands as two lower-case hex digits at its own place |
| Uuid.StampKeepsTheRest | src/apis/application_endpoint_registration/store.rs:146-147 | stamping changes the version nibble and the variant bits and no other bit |
| Uuid.StampedIsVersion4 | src/apis/application_endpoint_registration/store.rs:144-151 | whatever the digest, the identifier is accepted by both recognisers and has version 4 and variant 10 (section 4.4 of RFC 4122) |
| Uuid.MintUuid | src/apis/application_endpoint_registration/store.rs:137-152 | overwriting two bytes of the array yields such an identifier |
| Bindings.BindAnswer | src/apis/blockchain_public_address/v0_3.rs:241-309 | exactly which bind requests pass, what each other one is told, in source order, and what a bound address is stored as |
| Bindings.PreImageInjective | src/apis/blockchain_public_address/v0_3.rs:354-365 | the hashed text determines a validated triple |
| Bindings.ValidIsColonFree | src/apis/blockchain_public_address/v0_3.rs:241-285 | validation lets no colon into a phone number or an address |
| Bindings.StoreHoldsBound | src/apis/blockchain_public_address/store.rs:41-60 | after any run the stored ids are exactly those of the bound triples |
| Bindings.DuplicateIffBound | src/apis/blockchain_public_address/v0_3.rs:287-303 | a valid bind answers already-exists iff that very triple is bound |
| Bindings.DeletedIsBindableAgain | src/apis/blockchain_public_address/v0_3.rs:329-352 | deleting unbinds that triple and no other, and it can be bound again |
| Bindings.BindingStore.Insert | src/apis/blockchain_public_address/store.rs:51-60 | inserts iff the id is free, else changes nothing |
| Bindings.BindingStore.Remove | src/apis/blockchain_public_address/store.rs:79-85 | removes iff the id is there, else changes nothing |
| Bindings.BindingStore.BindAddress | src/apis/blockchain_public_address/v0_3.rs:241-309 | the handler in place is the step of the run theorems, refusals in source order |
| Bindings.BindingStore.DeleteAddress | src/apis/blockchain_public_address/v0_3.rs:329-352 | likewise for delete |
| HashSeed.HashSeed | src/apis/capabilities_and_restrictions/vwip.rs:300-315 | the nested loop folds exactly the newline-terminated byte stream |
| HashSeed.KnownHashes | src/apis/capabilities_and_restrictions/vwip.rs:304-315 | two hashes as numbers: of no overlay, and of the one overlay `a` with its newline |
| HashSeed.StepIsBijection | src/apis/capabilities_and_restrictions/vwip.rs:308-309 | each xor and wrapping multiplication is undone by an explicit inverse, both ways |
| HashSeed.OneByteChangesTheHash | src/apis/capabilities_and_restrictions/vwip.rs:304-315 | replacing any one byte of any one overlay always changes the hash |
| HashSeed.BitmapInThreeBits | src/apis/capabilities_and_restrictions/vwip.rs:229-238 | the published seed % 8 equals the same fold run in 3-bit arithmetic |

## Left out

- HTTP: routing, extractors, response bodies and status codes, correlator echo, OpenAPI, query-string parsing of the list parameters. A request enters the model decoded.
- Carrier Billing checks before the stores: scope, body parsing, phone-number resolution and the f64 amount ceiling. A request enters the model once it has passed them.
- Event contents beyond kind, payment and sink: descriptions, times and data fields of the CloudEvents. Event ids are minted (the counter moves) but not recorded.
- TCP and TLS delivery. A delivery is an event appended to a log.
- Deriving the sink credential from the request: a sink arrives with its `Authorization` value.
- Internals of SHA-256, RSA, base64url and JSON text. JSON numbers are naturals: a claim that is negative or fractional behaves as any other non-u64 value does.
- Id minting by hash: minted ids are an injective function of a counter, with the clock reading folded into it. `Uuid` proves only the bit setting and the rendering. Counters and clock readings on the authorization side are unbounded, not u64.
- Interleaving inside the authorization handlers: each makes one store call under one lock, so a handler is one step. What is then not shown is that the token counter and the code store advance at different instants.
- Client identity: extraction from a Basic header or an assertion. The three identities enter decoded, in the source's order of precedence.
- Redirect construction (`append_query`) and the `state` parameter.
- `slice::sort_by` is represented by stable insertion; `PaymentList.SortedIsUnique` makes the result independent of that choice. Its comparison of string bytes is a comparison of characters, which agrees for every string the server stores as a date or an id.
- PaymentList.ApplyListParams: asks for at most i64::MAX payments, which every Rust `Vec` satisfies.
- Timestamps.StringsSortAsInstants: years 0 to 9999 only; `Timestamps.SortingLimit` says exactly how far this goes. Years before 0, which no clock here reads, are not ordered.
- Strings are sequences of characters, not UTF-8 bytes; only `HashSeed` and `Pkce` work on bytes. The UUID, URL and grammar checks look at ASCII only.
- `application_endpoint_registration/store.rs` insert, replace, remove and all, and the application-profile and click-to-dial stores: the same map operations with less behaviour.
- Trailing-digit scenario tables of discovery, call forwarding and address retrieval.
