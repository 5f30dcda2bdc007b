# FixItPH: protocols of the marketplace API

A Dafny model of the stateful protocols in this marketplace's API, and proofs about them:
requests, quotes, bookings and disputes; review edits and provider ratings; sessions and
guessed codes; the change feed and the list cache; the category tree.

Each protocol has a step function over values, a run of steps, and theorems over every run.
Where the service updates rows in place, a class has the same fields and the same order of
checks and writes, and its methods are proved equal to the step function. Times are
milliseconds of a clock that never runs back. Identifiers, passwords, codes and digests are
numbers, equal exactly when the originals are: argon2, SHA-1, SHA-256 and JSON encoding are
taken as injective.

**Serial and interleaved.** Transactions run at Read Committed (section 13.2.1 of the PostgreSQL
manual), so a call is a read phase on the rows of the moment and a later write phase on the
rows as they have become. A write phase is one step, because its statements hold the row
locks until commit.

| file | holds |
|---|---|
| `ReviewEdits.dfy` | edits of one review, interleaved |
| `Ratings.dfy`, `RatingRaces.dfy` | stored ratings, serial and overlapping |
| `Bookings.dfy` | the trail of one booking, interleaved; the lifecycle with disputes, serial |
| `StatusHistory.dfy` | the trail as it is read back, interleaved |
| `Market.dfy`, `MarketSerial.dfy`, `QuotesService.dfy` | requests, quotes and bookings together, serial |
| `QuoteRaces.dfy` | the same calls, interleaved |
| `ChangeFeed.dfy` | the coalescing feed, with punctual or late timers |
| `ListKeys.dfy`, `ListCache.dfy`, `ListStaleness.dfy` | cache keys; versioned listings, interleaved |
| `GuessBudget.dfy`, `PasswordReset.dfy`, `EmailVerification.dfy`, `LoginLockout.dfy` | counted guesses, serial |
| `Sessions.dfy` | refresh families (section 4.14.2 of RFC 9700), serial |
| `LoginRaces.dfy`, `SessionRaces.dfy` | overlapping failed logins and refreshes |
| `Categories.dfy`, `CategoryTree.dfy` | the parent table and the tree built from it |

**Where code and comments differ.** The code is followed.

- The comments on both rating routines say the aggregate and the reviews "can never disagree".
  Serially that holds. `RatingRaces.RatingStaysRightIff` is the exact condition under overlap,
  `RatingRaces.OverlappingCreatesMiscount` a run that fails it.
- Review creation, re-rating and user suspension move the list version inside their transaction.
  `ListCache.BumpBeforeCommitGoesStale` and `ListCache.BumpMovedBackGoesStale` show what can follow;
  `ListStaleness.ListingsStayFreshIffNothingSpoils` is the exact condition.
- The index comments say a request "can only ever produce one booking".
  `QuoteRaces.WithdrawalAcrossAcceptBooksTwice` books one twice;
  `QuoteRaces.OneBookingIffNeverBooksAgain` is the exact condition.
- The status history is read back by the time its transactions began, not in the order its rows
  were written. `StatusHistory.ReadsAsTrailIffInOrder` is the exact condition,
  `StatusHistory.OverlapReadsOutOfOrder` a run that fails it.
- A late timer can crowd announcements: `ChangeFeed.WindowsKeptIffNeverCrowded`.
- A refresh and a failed login read and later write with no lock between.
  `SessionRaces.FamilyStaysSingleIffNeverForks` and `LoginRaces.ExactIffNeverOverwrites` are the exact conditions.
- The category walk stops after twenty categories. `Categories.UpdateIsSafeIffNotOverlooked` is the
  exact condition, `Categories.TallTowerLoops` a run that fails it.

## Model

| member | source | states |
|---|---|---|
| `ReviewEdits.EditHistoryIsComplete` | src/reviews/reviews.service.ts:182-279 | Any interleaving of stale reads and trigger-checked writes by non-admin authors, replies and visibility changes: history followed by the current text is exactly the ordered list of every version the review ever had |
| `ReviewEdits.EveryVersionKept` | prisma/migrations/20260101000200_security/migration.sql:490-523 | The same as an invariant of every step, together with: every pending rewrite was built from a version that existed |
| `ReviewEdits.StaleEditChangesNothing` | prisma/migrations/20260101000200_security/migration.sql:502-523 | An edit that had not seen the newest version is refused, or leaves the review as it was apart from one snapshot timestamp |
| `ReviewEdits.LengthTestIsExact` | prisma/migrations/20260101000200_security/migration.sql:501-523 | For any rewrite let through unread, no version is lost or invented if and only if the two length conditions hold |
| `ReviewEdits.HistoryIsCompleteIffNothingSlips` | prisma/migrations/20260101000200_security/migration.sql:490-523 | Administrators included, any interleaving: the history is complete at every moment if and only if no rewrite lands that the length test would have refused |
| `ReviewEdits.RewriteThatPasses` | prisma/migrations/20260101000200_security/migration.sql:501-523 | A rewrite that passes the length conditions appends one version or changes no version |
| `ReviewEdits.AdminRewriteCanLoseAVersion` | prisma/migrations/20260101000200_security/migration.sql:497 | A run in which an administrator, whom the trigger lets through, overwrites a version the history never records |
| `Ratings.ReviewsService.Create` | src/reviews/reviews.service.ts:63-132 | Exactly when a review is accepted and when each refusal is the answer; it is the customer's one review of a completed booking, and every stored rating still tells the truth |
| `Ratings.ReviewsService.Update` | src/reviews/reviews.service.ts:182-288 | Exactly who may reply and who may edit, and when each of the five refusals is the answer; given fields replaced, the snapshot appended, nothing else; stored ratings stay true |
| `Ratings.ReplyAnswers` | src/reviews/reviews.service.ts:206-224 | A reply goes through iff it comes from an administrator or the reviewed provider, who must not be changing it on a review of their own; when each refusal is the answer |
| `Ratings.EditAnswers` | src/reviews/reviews.service.ts:226-279 | An edit goes through iff it is the author's or an administrator's, says something new and stays on the scales; when each refusal is the answer, and the text field by field |
| `Ratings.ReviewsService.SetReviewVisibility` | src/admin/admin.service.ts:1074-1145 | Hiding or restoring keeps every stored rating true; refused exactly when nothing would change |
| `Ratings.ReviewsService.RecomputeRating` | src/reviews/reviews.service.ts:334-351 | One pass over the rows leaves the provider a true rating, formatted from the mean, and every other rating as it was |
| `Ratings.ReviewsService.RecomputeProviderRating` | src/admin/admin.service.ts:1147-1164 | The second routine, its own pass with the column's rounding, leaves a rating that is true in the same sense, and every other as it was |
| `Ratings.AggregateIsHonest` | src/reviews/reviews.service.ts:334-351 | The count is the number of visible reviews, the average is within half a hundredth of their exact mean (0 without reviews) and lies in 0 to 5, whichever of the two roundings is used |
| `Ratings.CountIsCardinality` | src/reviews/reviews.service.ts:338-342 | The recursive count is the cardinality of the set of visible reviews |
| `RatingRaces.RatingStaysRightIff` | src/reviews/reviews.service.ts:334-351 | Any overlap of creating, re-rating, hiding and restoring: the stored number of reviews is right at every moment iff no transaction commits whose query missed changes that do not cancel out in number; the stored average iff none commits an average those changes have put more than half a hundredth off the mean |
| `RatingRaces.CommitCounts` | src/reviews/reviews.service.ts:338-351 | After any commit the visible reviews are what its query counted plus what others committed since |
| `RatingRaces.EffectIsDifference` | src/admin/admin.service.ts:1098-1113 | What one creation, re-rating, hiding or restoring does to the number and the sum of the visible ratings |
| `RatingRaces.UndisturbedIsRight` | src/reviews/reviews.service.ts:334-351 | A transaction across which nothing else commits stores a true rating |
| `RatingRaces.OverlappingCreatesMiscount` | src/reviews/reviews.service.ts:101-115 | Two overlapping creations after which the stored number and average are both wrong |
| `Bookings.TrailIsThePath` | prisma/migrations/20260101000200_security/migration.sql:416-444 | Whatever the reads were and in whatever order writes land: the history rows, in the order they are written, form a chain from null with no self-edge ending at the current status, and the address is revealed to the provider iff the chain contains CONFIRMED |
| `StatusHistory.ReadsAsTrailIffInOrder` | src/bookings/bookings.service.ts:493-502 | However calls overlap, every reading of the history sorted by created_at is the trail in the order it was written iff the writes that moved the status landed in the order in which their transactions began |
| `StatusHistory.InOrderReadsAsChain` | src/bookings/bookings.service.ts:152-175 | Then the rows as read form the chain that ends at the current status |
| `StatusHistory.ReadsAsWrittenIffRising` | prisma/migrations/20260101000100_init/migration.sql:374-385 | Rows sorted by a non-unique time can be read in one way only, the order of writing, iff the times rise strictly |
| `StatusHistory.OverlapReadsOutOfOrder` | src/bookings/bookings.service.ts:493-502 | A confirmation that overtakes a cancellation: the rows as read are no chain and do not end at the status |
| `Bookings.LandKeepsTrail` | prisma/migrations/20260101000200_security/migration.sql:746-769 | One landing write, accepted or sent back by a CHECK, keeps that chain and that equivalence |
| `Bookings.InsertStartsATrail` | prisma/migrations/20260101000200_security/migration.sql:416-436 | A new booking satisfies the CHECKs and has the one history row from null |
| `Bookings.SerialLifecycle` | src/bookings/bookings.service.ts:22-54 | Serial runs: every history edge, including the two written without assertTransition, is an edge of TRANSITIONS; only COMPLETED and DISPUTED can recur; nothing follows a cancellation; no booking becomes a no-show |
| `Bookings.GuardsSuffice` | prisma/migrations/20260101000200_security/migration.sql:215-232 | A call that passes its service guards is never refused by a CHECK or by the one-open-dispute index, and keeps the case sound |
| `Bookings.DisputedHasOneOpenDispute` | prisma/migrations/20260101000200_security/migration.sql:305-307 | After any serial run at most one dispute is open, exactly one while the booking is DISPUTED, and all CHECKs hold |
| `Bookings.DisputeSuffices` | src/disputes/disputes.module.ts:50-132 | A dispute that passes its guards moves along a legal edge and is the only open one |
| `Bookings.ResolveSuffices` | src/admin/admin.service.ts:673-733 | Any ruling, also a second one on an old dispute, leaves the booking outside DISPUTED and satisfies every CHECK |
| `Bookings.RescheduleSuffices` | src/bookings/bookings.service.ts:281-328 | Moving only the start keeps the duration exactly, and no reschedule that passes its guards breaks the schedule CHECK |
| `Bookings.AttemptIsSound` | src/bookings/bookings.service.ts:256-510 | No call changes which quote, request, customer or provider a booking is for |
| `Bookings.RankClimbs` | src/bookings/bookings.service.ts:22-54 | Along a legal trail the lifecycle rank never falls and stands still only between COMPLETED and DISPUTED |
| `Bookings.WhoMayTakeAnEdge` | src/bookings/bookings.service.ts:22-54 | TRANSITIONS read actor by actor: exactly the edges of the provider, of the customer, and of an administrator |
| `Bookings.ConfirmAnswers` | src/bookings/bookings.service.ts:336-371 | Confirming goes through iff the booking is pending and the caller acts for the provider; when each refusal is the answer, and every field after |
| `Bookings.StartAnswers` | src/bookings/bookings.service.ts:373-391 | Starting, likewise, from CONFIRMED |
| `Bookings.CancelAnswers` | src/bookings/bookings.service.ts:393-442 | Either side cancels before the work starts, only an administrator out of a dispute; the status names the caller's side |
| `Bookings.CompleteAnswers` | src/bookings/bookings.service.ts:448-484 | The provider's side completes work in progress, an administrator also a disputed booking; the final amount replaces the total if given |
| `Bookings.RescheduleAnswers` | src/bookings/bookings.service.ts:256-334 | Goes through iff the booking is pending or confirmed, a new start is to come and a given end is after it; the fields after, with the distance of an end that is not given |
| `Bookings.DisputeAnswers` | src/disputes/disputes.module.ts:66-132 | Goes through iff a party disputes work begun or ended, with every earlier dispute settled |
| `Bookings.ResolveAnswers` | src/admin/admin.service.ts:679-733 | Exactly which ruling leads to which dispute status and booking status; a booking that is not in dispute is left alone |
| `Bookings.BookingRecord.constructor` | src/quotes/quotes.service.ts:350-372 | A new booking starts as a sound case |
| `Bookings.BookingRecord.Save` | prisma/migrations/20260101000200_security/migration.sql:416-444 | A row update is refused exactly when a CHECK fails; otherwise the trail grows by one entry iff the status changes |
| `Bookings.BookingRecord.AssertTransition` | src/bookings/bookings.service.ts:560-579 | Passes exactly when the caller is a party whose role may take the edge; otherwise the right one of three errors |
| `Bookings.BookingRecord.Confirm` | src/bookings/bookings.service.ts:336-371 | Answers, fields and trail after it from the row alone, and the case stays sound |
| `Bookings.BookingRecord.Start` | src/bookings/bookings.service.ts:373-391 | Starting, likewise |
| `Bookings.BookingRecord.Cancel` | src/bookings/bookings.service.ts:393-446 | Cancelling to the status of the caller's side, likewise |
| `Bookings.BookingRecord.Complete` | src/bookings/bookings.service.ts:448-508 | Completing, with an optional final amount, likewise |
| `Bookings.BookingRecord.Reschedule` | src/bookings/bookings.service.ts:256-334 | Rescheduling, likewise, with the duration kept when only the start is given |
| `Bookings.BookingRecord.RaiseDispute` | src/disputes/disputes.module.ts:50-132 | Goes through iff a party disputes work begun or ended with no dispute open; the dispute and the status together, or nothing |
| `Bookings.BookingRecord.ResolveDispute` | src/admin/admin.service.ts:673-733 | Goes through iff the dispute exists; a refund cancels for the provider, other rulings complete, with their stamps; afterwards the booking is not DISPUTED |
| `MarketSerial.AcceptedQuotesPairWithBookings` | src/quotes/quotes.service.ts:271-389 | Any serial run from empty tables: an ACCEPTED quote's request is BOOKED or CLOSED with no other live quote; bookings made by accepting and ACCEPTED quotes match one to one in quote, request, customer and provider; all booking CHECKs hold |
| `MarketSerial.AcceptanceIsForever` | src/requests/requests.service.ts:22-50 | An accepted quote stays accepted and its request stays BOOKED or CLOSED through every later run |
| `MarketSerial.QuoteIndexesNeverRefuse` | prisma/migrations/20260101000200_security/migration.sql:288-296 | In serial runs no call of any kind is ever refused by either quote index |
| `MarketSerial.AcceptRefusals` | src/quotes/quotes.service.ts:271-389 | Once the accept guards pass, exactly which conditions lead to each of the three remaining refusals |
| `MarketSerial.OnlyReschedulingMeetsATakenSlot` | prisma/migrations/20260101000200_security/migration.sql:299-303 | A call on an existing booking is refused by the slot index if and only if the slot is held, and only a reschedule to a new start can be |
| `MarketSerial.OneLiveQuoteLeft` | src/quotes/quotes.service.ts:334-351 | Accepting leaves one live quote on the request and touches no other request |
| `MarketSerial.PerformKeepsInv` | src/quotes/quotes.service.ts:54-433 | Every service call keeps the joint invariant of requests, quotes, bookings and disputes |
| `MarketSerial.RunKeepsInv` | src/requests/requests.service.ts:239-283 | So does every serial run |
| `QuotesService.QuoteDesk.Create` | src/quotes/quotes.service.ts:54-208 | Sent iff an approved, unsuspended provider without a live quote finds the request open to them; the quote field by field, valid a week unless said otherwise; the request QUOTED |
| `QuotesService.QuoteDesk.Update` | src/quotes/quotes.service.ts:219-265 | Changed iff pending and asked by its provider or an administrator; exactly the given fields |
| `QuotesService.QuoteDesk.Accept` | src/quotes/quotes.service.ts:271-389 | Goes through iff the customer decides on a pending, valid quote with a start to come and no rival; the quoted price, an end after the quoted minutes, siblings turned down, the request BOOKED; or every table as before |
| `QuotesService.QuoteDesk.Decline` | src/quotes/quotes.service.ts:391-433 | Goes through iff the customer decides on a pending quote; only its status changes |
| `QuotesService.QuoteDesk.MoveTo` | src/requests/requests.service.ts:239-283 | Goes through iff the caller, as administrator, customer or provider, may take the edge; only the status changes |
| `QuotesService.SendAnswers` | src/quotes/quotes.service.ts:54-160 | Exactly when a quote is sent, and when each refusal is the answer, from the rows alone |
| `QuotesService.EligibilityIsOpenTo` | src/quotes/quotes.service.ts:100-138 | What base table and feed together let a provider quote: requests addressed to nobody else, open and unexpired |
| `QuotesService.AcceptAnswers` | src/quotes/quotes.service.ts:271-332 | Exactly when a quote can be accepted, and when it is not pending, expired, or the start is past |
| `QuotesService.AcceptedTimes` | src/quotes/quotes.service.ts:327-358 | The booking starts when asked, ends after the quoted minutes if there are any, and costs what was quoted |
| `QuotesService.ReviseAnswers` | src/quotes/quotes.service.ts:219-261 | Exactly when a quote can be revised or withdrawn |
| `QuotesService.DeclineAnswers` | src/quotes/quotes.service.ts:391-430 | Exactly when a quote can be rejected |
| `QuotesService.WhoMayMoveARequest` | src/requests/requests.service.ts:22-50 | TRANSITIONS of a request read actor by actor |
| `QuotesService.PostedRequest` | src/requests/requests.service.ts:116-141 | A posted request is open at once and expires after fourteen days |
| `QuotesService.RecordedBooking` | src/bookings/bookings.service.ts:216-254 | Only an administrator records a booking, of a quote in any status, once, for a free slot |
| `QuoteRaces.IndexesHoldInAnyInterleaving` | prisma/migrations/20260101000200_security/migration.sql:288-296 | Any interleaving of stale-guarded calls: at most one ACCEPTED quote per request and at most one booking per quote |
| `QuoteRaces.OneBookingIffNeverBooksAgain` | prisma/migrations/20260101000200_security/migration.sql:292-296 | Every interleaving from empty tables, booking calls included: accepting never makes two bookings of one request iff no acceptance lands on a request with an accept-made booking whose quote is ACCEPTED no longer |
| `QuoteRaces.IndexGuardsTheBooking` | prisma/migrations/20260101000200_security/migration.sql:294-296 | While the quote of a request's booking is ACCEPTED, no other acceptance on the request goes through |
| `QuoteRaces.OneBookingPerRequest` | src/quotes/quotes.service.ts:271-389 | If no withdrawal or rejection lands across an acceptance of its quote: at most one accept-made booking per request, and its quote is ACCEPTED |
| `QuoteRaces.CoherentWhileUncrossed` | src/quotes/quotes.service.ts:219-433 | The invariant behind it, for every interleaving without such a crossing |
| `QuoteRaces.PairedIffNeverRetiresTaken` | src/quotes/quotes.service.ts:219-433 | The exact condition, any interleaving: accepted quotes and accept-made bookings match at every moment if and only if no withdrawal or rejection lands on a quote that is ACCEPTED by then |
| `QuoteRaces.RetiringIsSafeIffNotTaken` | src/quotes/quotes.service.ts:391-433 | A withdrawal or rejection that lands keeps quotes and bookings paired if and only if its quote is not ACCEPTED by then |
| `QuoteRaces.WithdrawalAcrossAcceptBooksTwice` | prisma/migrations/20260101000100_init/migration.sql:637 | A run of three overlapping calls that books one request twice past both indexes |
| `ChangeFeed.FeedRate` | src/events/change-feed.service.ts:70-99 | A window of W ms holds at most W/500 + 1 announcements of a resource with punctual timers, and at most twice that with timers late by any amount |
| `ChangeFeed.AnnouncementsSpanWindows` | src/events/change-feed.service.ts:75-98 | Neighbouring announcements are 500 ms apart when timers are punctual; any three in a row span 500 ms however late timers are |
| `ChangeFeed.NoChangeIsLost` | src/events/change-feed.service.ts:75-98 | A change published at t after any run is announced at t or later once no timer waits for it; with punctual timers it has been announced, by t + 500, whenever the clock stands past t + 500 |
| `ChangeFeed.OneTimerPerResource` | src/events/change-feed.service.ts:87-93 | In every reachable state a resource has at most one timer |
| `ChangeFeed.WindowsKeptIffNeverCrowded` | src/events/change-feed.service.ts:75-98 | However late timers are: announcements of a resource stay 500 ms apart iff none of its timers runs within 500 ms of an announcement made while that timer was overdue |
| `ChangeFeed.LateTimerCanCrowd` | src/events/change-feed.service.ts:87-93 | A run in which a late timer brings two announcements 1 ms apart |
| `ChangeFeed.ChangeFeedService.Publish` | src/events/change-feed.service.ts:70-94 | Announced at once iff 500 ms have passed since the last announcement; otherwise one timer for the end of that window, unless one waits; timers and map agree |
| `ChangeFeed.ChangeFeedService.TimerFires` | src/events/change-feed.service.ts:90-93 | A timer's callback, likewise |
| `ListKeys.SameKeyIffSameQuery` | src/cache/cache.service.ts:104-120 | Two queries have the same canonical form iff they agree on every field once undefined and empty-string fields are dropped, whatever the order of their keys |
| `ListKeys.CanonicalIsAscending` | src/cache/cache.service.ts:110-113 | The canonical form holds exactly the fields that count, in key order |
| `ListCache.NoStaleListing` | src/cache/cache.service.ts:141-191 | Any number of readers and writers overlapping, each write committed before its bump and no bump moving the version back: an answer reflects every write whose bump preceded the version read |
| `ListStaleness.ListingsStayFreshIffNothingSpoils` | src/cache/cache.service.ts:122-191 | The exact condition for every run: no moment lets readers end with a stale answer iff no commit comes after its own bump while something is cached or about to be under the current version, and no bump sets a version under which something older than what is settled is cached or about to be |
| `ListStaleness.CanGoStaleIffExposed` | src/cache/cache.service.ts:142-159 | Readers alone can end with a stale answer iff one is stale already, or a listing stored or about to be stored is older than what a lookup under its version and key must reflect |
| `ListStaleness.StepIsCleanIffNotSpoilt` | src/cache/cache.service.ts:173-179 | Exactly which steps let staleness in |
| `ListStaleness.DisciplineSpoilsNothing` | src/cache/cache.service.ts:173-179 | Committing before bumping, with no bump moving the version back, is one way to meet the condition |
| `ListCache.RunKeepsInv` | src/cache/cache.service.ts:122-137 | The invariant behind it, including entries stored late under an old version |
| `ListCache.BumpBeforeCommitGoesStale` | src/reviews/reviews.service.ts:129-131 | Why the commit must come first: with the bump inside the transaction an old listing is cached under the new version |
| `ListCache.BumpMovedBackGoesStale` | src/cache/cache.service.ts:173-179 | Why bumps must not overtake: an overtaken bump takes the version back to a number with old listings |
| `ListCache.OvertakenIsReachable` | src/cache/cache.service.ts:173-179 | The state that run starts from is reached by disciplined steps from the start |
| `ListCache.CacheService.KeyFor` | src/cache/cache.service.ts:104-120 | The key names the current version and the canonical query |
| `ListCache.CacheService.Version` | src/cache/cache.service.ts:122-137 | A missing version becomes 1; a present one is left |
| `ListCache.CacheService.Wrap` | src/cache/cache.service.ts:142-159 | A hit is answered unchanged; a miss stores and answers what was produced; no other entry changes |
| `ListCache.CacheService.InvalidateLists` | src/cache/cache.service.ts:173-191 | The version goes up by one: no stored listing of the namespace can be reached any more; other namespaces keep their versions |
| `ListCache.CacheService.InvalidateResource` | src/cache/cache.service.ts:197-200 | One detail entry is gone and every listing of the resource unreachable |
| `GuessBudget.GuessesInSpan` | src/auth/password-reset.service.ts:159-219 | Times of wrong guesses, a lockout apart from the limit on, that fit in a span are at most the limit plus span / lockout |
| `PasswordReset.EveryChangeIsJustified` | src/auth/password-reset.service.ts:242-304 | In any run every password change follows, on its own row, a request, then a right code before expiry and outside lockout, then the spend before the renewed expiry, with no newer request between; each user has at most one unused request; no token is spent twice |
| `PasswordReset.GuessBudgetPerRequest` | src/auth/password-reset.service.ts:159-219 | At most maxAttempts + (ttl - 1) / lockout wrong codes are ever checked against one request, and at most maxAttempts when the lockout is at least the lifetime |
| `PasswordReset.BudgetIsTight` | src/auth/password-reset.service.ts:182-219 | For every configuration a run that attains exactly that number |
| `PasswordReset.RunKeepsInv` | src/auth/password-reset.service.ts:72-304 | The joint invariant of rows, log and provenance through every run |
| `PasswordReset.PasswordResetService.Request` | src/auth/password-reset.service.ts:72-121 | A request retires every unused one of the user and adds one; an unknown user changes nothing |
| `PasswordReset.PasswordResetService.Verify` | src/auth/password-reset.service.ts:130-238 | For the newest unused request exactly when each refusal is the answer, the counted miss with its lockout, or the token with a fresh count and expiry |
| `PasswordReset.PasswordResetService.Reset` | src/auth/password-reset.service.ts:242-304 | Goes through iff the token is held by a verified, unused, unexpired request and the password differs; refused as unchanged iff it is the same; otherwise invalid |
| `EmailVerification.WindowBudget` | src/auth/email-verification.service.ts:105-147 | Across all resends, wrong codes checked for one user in any window W are at most (maxAttempts + (ttl - 1)/lockout) * (W/cooldown + 2), and maxAttempts * (W/cooldown + 2) when the lockout is at least the lifetime |
| `EmailVerification.GuessBudgetPerCode` | src/auth/email-verification.service.ts:201-255 | At most maxAttempts + (ttl - 1)/lockout wrong guesses are ever checked against one code, although the code path keeps an old lockout instead of clearing it |
| `EmailVerification.OnlyTheLatestCodeProves` | src/auth/email-verification.service.ts:168-283 | After any run a code proves the address iff it is the latest sent, was sent to the present address, is younger than its lifetime and is not locked |
| `EmailVerification.TokensInWindow` | src/auth/email-verification.service.ts:105-121 | The cooldown limits how many tokens can be guessed at in one window |
| `EmailVerification.RunKeepsInv` | src/auth/email-verification.service.ts:71-283 | While the address is unproved the newest token is the only unused one, so the cooldown always sees it; kept by every run |
| `EmailVerification.EmailVerificationService.Send` | src/auth/email-verification.service.ts:71-162 | Goes through iff the address is unproved and the newest open code is at least a cooldown old; retires every open code and adds one for the present address |
| `EmailVerification.EmailVerificationService.Confirm` | src/auth/email-verification.service.ts:168-283 | For the newest open code exactly when each refusal is the answer, the counted miss, or the proof |
| `LoginLockout.FailureBudget` | src/auth/auth.service.ts:204-225 | In any run, failures with no zeroing between them, the last at most W after the first, number at most maxAttempts + W / lockout |
| `LoginLockout.LockHolds` | src/auth/auth.service.ts:142-147 | At the limit, until the lockout has passed since the last failure, every password is refused unchecked |
| `LoginLockout.StepKeepsInv` | src/auth/auth.service.ts:114-225 | Every step keeps: the counter is exactly the number of failures since the last zeroing, and the lock outlives the last of them by the lockout |
| `LoginRaces.ExactIffNeverOverwrites` | src/auth/auth.service.ts:204-225 | Overlapping logins: the counter is the number of failures since the last zeroing at every moment iff no failure is written over a counter that has changed since its call read it |
| `LoginRaces.OverlapOutrunsTheLock` | src/auth/auth.service.ts:114-225 | For every n a run of overlapping logins that checks n wrong passwords and leaves the counter at one and the account unlocked |
| `LoginLockout.LoginService.Login` | src/auth/auth.service.ts:114-201 | Exactly when it is locked, refused or let in; a right password on a suspended account neither counts nor clears |
| `LoginLockout.LoginService.RegisterFailedAttempt` | src/auth/auth.service.ts:204-225 | Counts one failure and locks from the limit on |
| `LoginLockout.LoginService.GoogleSignIn` | src/auth/google-auth.service.ts:214-262 | The same refusals as login; success zeroes the counter |
| `LoginLockout.LoginService.ResetPassword` | src/auth/password-reset.service.ts:283-304 | Sets the password and zeroes the counter |
| `LoginLockout.LoginService.Reinstate` | src/admin/admin.service.ts:438-460 | Activates the account and zeroes the counter |
| `Sessions.FamiliesAreChains` | src/auth/auth.service.ts:311-394 | After any run the replacedBy links of a family, from its oldest token on, visit exactly its tokens in order of issue; only its newest can be unrevoked; a suspended user has no unrevoked token |
| `Sessions.ReuseEndsTheFamily` | src/auth/auth.service.ts:340-355 | Presenting a rotated or revoked token is answered as reuse, and whatever happens next no refresh with any token of the family succeeds |
| `Sessions.RefreshIsSingleUse` | src/auth/auth.service.ts:311-394 | A token that was rotated once is refused as reuse after any later run |
| `Sessions.RefreshMovesTheSession` | src/auth/auth.service.ts:373-394 | A successful refresh revokes the presented unexpired token, links it to a new one of the same user and family, and touches no other |
| `Sessions.DeadStaysDead` | src/auth/auth.service.ts:397-409 | A family with no unrevoked token never gains one |
| `Sessions.SuspendedIsOut` | src/admin/admin.service.ts:401-412 | From a suspension until a reinstatement the user cannot log in, sign in through Google or refresh, and holds no unrevoked token |
| `Sessions.RunKeepsInv` | src/auth/auth.service.ts:250-409 | The invariant of families, owners and digests through every run |
| `SessionRaces.FamilyStaysSingleIffNeverForks` | src/auth/auth.service.ts:311-394 | Refreshes overlapping each other and every other call: a family has at most one unrevoked token at every moment iff no refresh lands on a token revoked since its checks while the family is still live |
| `SessionRaces.DeadIffNeverRevived` | src/auth/auth.service.ts:311-409 | An ended family stays ended at every moment iff no refresh that had passed its checks before lands in it afterwards |
| `SessionRaces.OverlappingRefreshesFork` | src/auth/auth.service.ts:373-394 | Two overlapping refreshes of one token after which the family has two live tokens |
| `SessionRaces.ChecksOfARefresh` | src/auth/auth.service.ts:334-371 | The checks of an overlapping refresh are those of one that runs alone |
| `Sessions.SessionService.IssueTokens` | src/auth/auth.service.ts:250-305 | Adds one unrevoked token with a new digest, or nothing when the digest exists |
| `Sessions.SessionService.Register` | src/auth/auth.service.ts:58-110 | Goes through iff the account is new; an active user and a session in a new family |
| `Sessions.SessionService.Login` | src/auth/auth.service.ts:174-201 | Goes through iff the account is active or awaiting verification; a session in a new family |
| `Sessions.SessionService.GoogleSignIn` | src/auth/google-auth.service.ts:47-208 | A new user, a returning one, or a link that ends exactly the user's other sessions first; refused iff suspended or deactivated |
| `Sessions.SessionService.Refresh` | src/auth/auth.service.ts:311-394 | When the token is unknown, reused, expired, its owner unavailable or the digest taken, each exactly; otherwise the rotation and nothing else |
| `Sessions.RefreshAnswers` | src/auth/auth.service.ts:311-394 | Each of the refusals and the rotation with its exact condition on the presented token, and every token after it |
| `Sessions.SessionService.Logout` | src/auth/auth.service.ts:397-409 | Ends exactly the unrevoked tokens of a known token's family |
| `Sessions.SessionService.SuspendUser` | src/admin/admin.service.ts:382-412 | Goes through iff it is somebody else; suspends them and ends exactly their sessions |
| `Sessions.SessionService.ReinstateUser` | src/admin/admin.service.ts:438-460 | Activates an existing user and revives no session |
| `Categories.ShallowGuardIsExact` | src/categories/categories.service.ts:127-154 | With ancestor chains of at most twenty categories a move is refused if and only if it would close a loop |
| `Categories.UpdateIsSafeIffNotOverlooked` | src/categories/categories.service.ts:211-227 | From any loop-free table an accepted update leaves a loop if and only if the category sits above its new parent further than the walk goes |
| `Categories.RunIsSafeIffNeverOverlooked` | src/categories/categories.service.ts:110-187 | A run of creates, updates and removals stays loop-free if and only if no walk overlooks its category |
| `Categories.TallTowerLoops` | src/categories/categories.service.ts:211-227 | Twenty-one creates and one accepted move that close a loop |
| `Categories.OverlookedIsHigh` | src/categories/categories.service.ts:212-213 | An overlooked category sits at least twenty steps above its new parent, whose chain is longer than twenty |
| `Categories.OverlookedMeansAccepted` | src/categories/categories.service.ts:127-154 | The failing case in terms of the guards alone is exactly an accepted move to under a descendant |
| `Categories.CreateKeeps` | src/categories/categories.service.ts:110-125 | Creating keeps the table closed under parents and loop-free |
| `Categories.RemoveKeeps` | src/categories/categories.service.ts:156-183 | So does removing, by deletion or by deactivation |
| `Categories.CategoriesService.AssertNoCycle` | src/categories/categories.service.ts:211-227 | The bounded loop finds the category iff it is among the first twenty on the way up |
| `Categories.CategoriesService.Create` | src/categories/categories.service.ts:110-125 | Accepted exactly for a new identifier under no parent or an existing one; adds it and nothing else, and keeps a loop-free table loop-free |
| `Categories.CategoriesService.Update` | src/categories/categories.service.ts:127-154 | Refused as a loop iff the category is among the first twenty on the way up from its new parent; each other refusal exactly; otherwise only its parent changes |
| `Categories.UpdateAnswers` | src/categories/categories.service.ts:127-154 | When an update is refused, and as what, and what an accepted one leaves |
| `Categories.CategoriesService.Remove` | src/categories/categories.service.ts:156-183 | Refused iff there are children, or no live service but something else that refers to it; deactivated with live services; otherwise deleted |
| `CategoryTree.BuildTree` | src/categories/categories.service.ts:12-27 | One pass over fresh nodes: the roots are exactly the rows whose parent is null or absent, and each node lists exactly its children, all in input order |
| `CategoryTree.ForestHoldsEachRowOnce` | src/categories/categories.service.ts:12-27 | On a loop-free table, whatever rows are selected and in whatever order, reading the forest from its roots meets every selected row exactly once |
| `CategoryTree.MetOnceOrNever` | src/categories/categories.service.ts:12-27 | On any rows: a row is met exactly once if its ancestors end and never otherwise |
| `CategoryTree.UnderItsParentOnce` | src/categories/categories.service.ts:22-25 | A row is listed once under its parent and nowhere else |
| `CategoryTree.AmongRootsOnce` | src/categories/categories.service.ts:22-25 | A row is a root exactly when its parent is null or absent, and then once |

## Left out

- ReviewEdits.EditHistoryIsComplete: rewrites by administrators are excluded, because the trigger returns before its length test for them; `HistoryIsCompleteIffNothingSlips` includes them and gives the exact condition.
- Ratings.ReviewsService.Update: the calls are serial and write whole rows; the interleaved behaviour of the text is in `ReviewEdits`, that of the rating in `RatingRaces`.
- Ratings.AggregateIsHonest: which way an exact tie rounds is left open, since one routine formats a binary fraction and the other lets the column round.
- MarketSerial.AcceptedQuotesPairWithBookings: bookings that an administrator records for a quote of any status are in the tables but outside the pairing.
- Market.WriteAccept: the statements of accepting are one step; interleaving between single statements of one transaction is not modelled, nor are deadlocks and lock timeouts.
- ListCache.NoStaleListing: cache timeouts, the fallback to the database, two initialisations of a version key and races on detail keys are not modelled; the code promises nothing there beyond the time to live.
- ChangeFeed.NoChangeIsLost: a timer is never early; with punctual timers a publish in the very millisecond a timer is due comes after it.
- EmailVerification.WindowBudget: the cooldown is taken as positive; each call reads the clock once for its checks and once for its writes.
- Categories.CategoriesService: names, slugs, positions, descriptions and icons, and the cache invalidation after each change.
- CategoryTree.BuildTree: returns its index of nodes as well, so that its contract can speak of every node.
- The hideReview branch of the report resolution, which hides a review without recomputing the rating.
- Overlapping calls on one reset row or one email code; the two writes of a refresh are one step, as are the statements of a login's write.
- Request creation checks on category, service and provider; other edits of a request.
- Soft-deleted rows (deletedAt), since no modelled call sets it.
- Access tokens, cookies, the OAuth handshake and the hashing algorithms.
- Row level security beyond what decides whether a modelled call finds its row.
- Notifications, mail, audit rows, messages, uploads, listing, search and pagination.
- Field validation of request bodies, taken as preconditions in the parameter types.
