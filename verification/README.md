# Verified model of the developer platform's services

The platform keeps its state in Postgres rows, Redis keys and BullMQ jobs, and its
services change that state in steps that can interleave at every `await`. This
project models five of those state machines and proves what every run of them keeps.

Each machine is a value `State`, a datatype `Action` with one constructor per step,
a total function `Apply` (a step whose moment has not come changes nothing) and
`Exec` over a sequence of actions. Theorems about "every run" quantify over every
sequence of actions, so they cover every interleaving. Beside each step system
stands a class with the service's fields and methods; every method is proved to take
exactly the step, or the sequence of steps, of the same name.

| files | models |
|---|---|
| `RateLimitModel`, `RateLimitExpiry`, `RateLimitCounts`, `RateLimitBurst`, `RateLimitNotices`, `RateLimitCache`, `RateLimitAnswers`, `RateLimitService` | the fixed-window limiter, its Redis counter and cached limit, owner updates, crashes |
| `WebhookModel`, `WebhookService` | delivery rows, the retrying queue job, the `failed` handler, the fan-out of an event |
| `PlatformModel`, `PlatformInvariants`, `PlatformResults`, `PlatformReplay`, `PlatformAccess`, `PlatformPlans`, `PlatformColumns`, `PlatformLimits`, `PlatformLedger`, `PlatformRuns`, `PlatformService` | billing and marketplace driven by their calls and by Stripe's sessions and events |
| `Bill`, `Earnings`, `Periods` | the bill, a publisher's earnings, billing periods and usage counts |
| `ApiKeyModel`, `ApiKeyService` | API keys: issue, lookup, usage counter, revocation, rotation, removal with their application |
| `Slug`, `SlugMeaning`, `Decimal` | the base-slug expression, what it keeps of a name, and the search for a free slug |
| `Basics` | Option, service outcomes, sequence helpers |

## Where the code and its comments disagree

The model follows the code. The exact property is proved, and a lemma shows the gap.

- "Emit exactly ONCE per window" (`src/rate-limit/rate-limit.service.ts:54-55`): an event fires for
  each answered request that was told its limit + 1, and for no other (`EventsAreBreaches`), so a
  window fires exactly once if and only if that guard is met once (`OncePerWindowIff`,
  `ExactlyOnceIff`). Under a constant limit that holds for the requests counted before the
  window's counter expires (`FiresIffExceeded`); with a changing limit there are runs with no
  event and with two (`ZeroEventsPossible`, `TwoEventsPossible`), and requests counted after the
  counter expired fire again even under a constant limit (`LateHitFiresAgain`).
- A crash between INCR and EXPIRE "could orphan a key for one window"
  (`src/rate-limit/rate-limit.service.ts:59-60`): the key never expires, and such a crash is the
  only way a counter is left without an expiry for good (`CrashOrphansForever`, `CrashPossible`).
  It does not harm the window's counts (`CountsHold` covers crashes).
- "Changes apply immediately" (`src/rate-limit/rate-limit.service.ts:73-77`): exactly if no
  reader is between its database read and its SET with another value
  (`UpdateImmediateIff`, `OldLimitComesBack`); the lag is bounded (`BoundedStaleness`).
- "How many HTTP attempts we've made" (`src/webhooks/entities/webhook-delivery.entity.ts:26`):
  less the transport errors that follow an earlier response (`AttemptAccounting`, `AttemptsCanLag`).
- "Keep the gateway rate limit in sync with the billed plan" (`src/billing/billing.service.ts:82`):
  an ENTERPRISE organization keeps the limit it had (`PlanCoherence`, `LimitInSyncIff`).
- "Lazily creating a FREE one" (`src/billing/billing.service.ts:53`) also sets the organization to FREE and 100,
  so the first use of billing undoes what its owner had set (`FirstUseResetsIff`, `PatchLostPossible`).
- "[start, end) of the current calendar month" (`src/billing/billing.service.ts:43`): the count
  is inclusive at both ends (`BoundariesCountTwice`, `UsageExactIff`).
- A superseded Stripe subscription is unlinked but not cancelled at Stripe (`SupersedeUnlinks`);
  a late report of its session links it again (`PaidPlanLifecycle`), and nothing else does
  (`DroppedStaysDropped`).
- "The subscription is only created once payment succeeds" (`src/marketplace/marketplace.service.ts:94-95`):
  after unsubscribing, or after Stripe reported the subscription deleted, the organization's own
  confirm call for its old session grants access again on the ended subscription
  (`ConfirmAfterUnsubscribe`, `ConfirmAfterDeletion`). Such late reports are the only way an active
  row comes to be linked to a subscription the services cancelled or Stripe reported deleted
  (`PaidForIff`). A subscription that ended without either, or went unpaid, is not noticed by the code.
- "Stop billing the subscriber" (`src/marketplace/marketplace.service.ts:282`): when two sessions of one
  pair are paid, the first subscription loses its row and no call cancels it (`LosesRowIff`,
  `AbandonedAllAlong`, `AbandonedPossible`).
- "The plan only becomes active once payment succeeds" (`src/billing/billing.service.ts:178`): `subscribe`
  sets any plan without payment (`UnpaidPlanPossible`), and nothing else puts a subscription on an
  unpaid one (`PaidPlansIff`).
- "Close the current period" (`src/billing/billing.service.ts:101`): an invoice bills the month of the last
  plan application (`InvoiceIsCurrentIff`); without a new one the same usage is billed again each
  time and later months never (`StaleMonthsRun`).
- A key's usage count can lose recordings: to an overlapping use (`OverlapLosesOne`) and to an overlapping
  revoke or rotate, which writes its older count back (`RevokeLosesOne`). It is exact at every point
  exactly if no two writes on the key overlap (`NoOverlapIsExact`), and at the end of a run exactly if
  the last write to land was unspoilt (`RecordingExactIff`).
- Two overlapping rotations leave two replacements (`OverlappingRotationsAddOne`); `LiveKeysAccounted` is
  the exact account.

## Model

| member | source | states |
|---|---|---|
| RateLimitModel.RetryMeetsLaterWindow | src/rate-limit/rate-limit.service.ts:62-70 | `retryAfter` is always 1 to 60; a client that waits it lands in a strictly later window, and any whole second less keeps it in the same one |
| RateLimitModel.ConsumeAlone | src/rate-limit/rate-limit.service.ts:40-71 | a call with nothing in between counts one more request of its window, answers by that count, notifies only on limit + 1, leaves the limit cached |
| RateLimitModel.ConsumeCounter | src/rate-limit/rate-limit.service.ts:43-52 | a lone call leaves its window's counter one higher; the first one gives it 60 seconds to live, a later one leaves the expiry alone |
| RateLimitAnswers.RemainingIsExact | src/rate-limit/rate-limit.service.ts:61-70 | a lone call is allowed exactly if fewer than the limit came before it in its window, and of n more calls the last is allowed exactly if n is at most `remaining` |
| RateLimitAnswers.AnswersFit | src/rate-limit/rate-limit.service.ts:61-70 | in every run each answer given is allowed exactly if the request's place in its window is within the limit it was measured against, says how many more fit, and when the window ends |
| RateLimitAnswers.AllowedAnswers | src/rate-limit/rate-limit.service.ts:43-71 | the limiter's promise on the answers themselves: under every interleaving at most min(n, L) of a window's n on-time requests are told they are allowed if no limit was above L; exactly min(n, L) if every limit was L and all are answered |
| RateLimitAnswers.StoredLimitBoundsAnswers | src/rate-limit/rate-limit.service.ts:40-87 | if the stored limit never exceeded L, at most L on-time requests of a window, and at most (k+1)L of any k minutes, are told they are allowed |
| RateLimitAnswers.TwiceTheLimitAllowed | src/rate-limit/rate-limit.service.ts:43-70 | the bound is met: for every L a run that tells 2L requests stamped within one minute they are allowed |
| RateLimitCounts.CountsHold | src/rate-limit/rate-limit.service.ts:43-52 | every run, crashes included, keeps: the first counter of a window holds the number of its hits, a later one less, and the first never expires before the window ends |
| RateLimitCounts.ToldPlaceIffOnTime | src/rate-limit/rate-limit.service.ts:43-52 | in every run a request is told its place in its window if and only if its INCR landed before the window's counter was set to expire (on time), which every INCR before the window's end is |
| RateLimitCounts.WindowAdmissions | src/rate-limit/rate-limit.service.ts:43-71 | under every interleaving the n on-time hits of a window get counts 1..n; at most min(n, largest limit used) are admitted, exactly min(n, L) if every limit is L |
| RateLimitCounts.SlidingBound | src/rate-limit/rate-limit.service.ts:43-70 | any half-open interval of k minutes of request timestamps admits at most (k+1)L on-time requests |
| RateLimitBurst.SlidingBoundIsMet | src/rate-limit/rate-limit.service.ts:43-70 | the bound is tight: for every L some run under the constant limit L admits 2L requests stamped within one minute |
| RateLimitCounts.LateHitCountsAgain | src/rate-limit/rate-limit.service.ts:43-52 | a run in which an INCR that lands after its window's counter expired is told 1 again |
| RateLimitNotices.EventsAreBreaches | src/rate-limit/rate-limit.service.ts:54-58 | the exact events of any run, late requests and changing limits included: one for each answered request that was told its limit + 1, none else |
| RateLimitNotices.OncePerWindowIff | src/rate-limit/rate-limit.service.ts:54-58 | a window fires exactly one event, late requests included, if and only if exactly one of its answered requests was told its limit + 1 |
| RateLimitNotices.AtMostOncePerLimit | src/rate-limit/rate-limit.service.ts:54-58 | whatever the limits do, a window's on-time requests cause at most one event per limit value |
| RateLimitNotices.EventForLimitIff | src/rate-limit/rate-limit.service.ts:54-58 | a window's on-time requests cause an event with limit L if and only if more than L arrived and the (L+1)-th was measured against L, once that one is answered |
| RateLimitNotices.ExactlyOnceIff | src/rate-limit/rate-limit.service.ts:54-58 | a window's on-time requests cause exactly one event if and only if exactly one of them, counting from 0, is measured against its own place, once such requests are answered |
| RateLimitNotices.FiresIffExceeded | src/rate-limit/rate-limit.service.ts:54-58 | under a constant limit L a window's on-time requests cause exactly one event if more than L arrived and none otherwise, once the (L+1)-th is answered (a crash before its answer loses the event) |
| RateLimitNotices.LateHitFiresAgain | src/rate-limit/rate-limit.service.ts:54-58 | under the constant limit 1, two requests counted after the counter expired make window 0 fire a second time |
| RateLimitNotices.ZeroEventsPossible | src/rate-limit/rate-limit.service.ts:54-58 | with a lowered limit, a run whose third on-time request is rejected fires no event |
| RateLimitNotices.TwoEventsPossible | src/rate-limit/rate-limit.service.ts:54-58 | with a raised limit, three on-time requests of one window fire two events |
| RateLimitExpiry.CrashOrphansForever | src/rate-limit/rate-limit.service.ts:49-60 | after any run a counter never gets an expiry, in any continuation, if and only if some step crashed the request that owed it its EXPIRE |
| RateLimitExpiry.StepOrphansIff | src/rate-limit/rate-limit.service.ts:49-52 | a step orphans a counter if and only if it is the crash of the request that owes it its EXPIRE |
| RateLimitExpiry.CrashPossible | src/rate-limit/rate-limit.service.ts:49-52 | a run that reaches the point between INCR and EXPIRE |
| RateLimitCache.BoundedStaleness | src/rate-limit/rate-limit.service.ts:78-87 | every limit handed out at time t was the stored limit at some moment no earlier than t - 60s - D, D the run's longest read-to-SET delay |
| RateLimitCache.CacheLivesAMinute | src/rate-limit/rate-limit.service.ts:78-87 | a cached limit is served for exactly 60 seconds, then read again |
| RateLimitCache.HitsUseStoredLimits | src/rate-limit/rate-limit.service.ts:78-87 | no request is ever measured against a limit the database never held |
| RateLimitCache.StoredLimitBoundsAdmissions | src/rate-limit/rate-limit.service.ts:40-87 | in terms of the database: if the stored limit never exceeded L, a window admits at most min(n, L) of its n on-time requests and k minutes at most (k+1)L of theirs; if it was always L, a window admits exactly min(n, L) |
| RateLimitCache.UpdateImmediateIff | src/organizations/organizations.service.ts:225-226 | from the moment the DEL lands, whatever happened since the save, every read in every continuation up to the next save gives the stored limit, if and only if no reader holds another limit it has read and not yet cached |
| RateLimitCache.AtomicCallsStayCoherent | src/rate-limit/rate-limit.service.ts:78-87 | a whole call, and a whole update, each keep: no reader in flight, and a present cache entry equals the stored limit |
| RateLimitCache.AtomicRunsStayCoherent | src/organizations/organizations.service.ts:203-226 | so over any run of whole calls, updates and waiting, a present cache entry always equals the stored limit: changes apply immediately |
| RateLimitCache.OldLimitComesBack | src/rate-limit/rate-limit.service.ts:78-87 | a run in which a reader re-caches the old limit after the DEL |
| RateLimitService.RateLimiter.GetLimit | src/rate-limit/rate-limit.service.ts:78-87 | takes exactly the steps of the read; returns the cached limit, else the stored one, else not found |
| RateLimitService.RateLimiter.Increment | src/rate-limit/rate-limit.service.ts:44-50 | the atomic INCR step: a fresh counter starts at 1 without expiry, a live one keeps its expiry |
| RateLimitService.RateLimiter.SetExpiry | src/rate-limit/rate-limit.service.ts:50-52 | the EXPIRE step after a first hit |
| RateLimitService.RateLimiter.Answer | src/rate-limit/rate-limit.service.ts:54-70 | emits on limit + 1; the result is allowed exactly if the count is within the limit, with what remains, the end of the window and the seconds to it |
| RateLimitService.RateLimiter.Consume | src/rate-limit/rate-limit.service.ts:40-71 | a whole call is the run of its steps: it fails exactly when no limit is found, and else counts one more than before and is allowed exactly if fewer than the limit were counted before it |
| RateLimitService.RateLimiter.UpdateRateLimit | src/organizations/organizations.service.ts:225-226 | save then DEL; afterwards a call alone finds the new limit, and coherence is kept |
| Decimal.ParsePrint | src/rate-limit/rate-limit.service.ts:82-85 | reading back a stored decimal text gives the number that was stored |
| Decimal.PrintAppends | src/organizations/organizations.service.ts:243 | a number's text is that of its tenth part followed by its last figure, with nothing before the first |
| Decimal.PrintInjective | src/organizations/organizations.service.ts:243 | different counters print differently |
| Slug.SlugIsJoinedWords | src/organizations/organizations.service.ts:237-238 | the two replacements together compute the alphanumeric words joined by single dashes |
| Slug.TrimIsRedundant | src/organizations/organizations.service.ts:234-238 | leaving out `trim` never changes the slug |
| Slug.BaseIsNormal | src/organizations/organizations.service.ts:233-238 | the base is nonempty, uses a-z, 0-9 and '-', and has no leading, trailing or doubled dash; it is the joined words, or the fallback if there are none |
| Slug.BaseIdempotent | src/marketplace/marketplace.service.ts:309-314 | slugifying a slug gives it back |
| SlugMeaning.BaseIgnoresCase | src/organizations/organizations.service.ts:233-238 | names that agree letter by letter up to case have the same base |
| SlugMeaning.BaseKeepsLetters | src/organizations/organizations.service.ts:233-238 | without its dashes the base is the name's letters and digits in order, each capital in lower case; a name has the fallback exactly if it has none |
| SlugMeaning.GapBecomesDash | src/organizations/organizations.service.ts:233-238 | a gap between letters becomes one dash however long it is, and nothing at either end |
| SlugMeaning.WordHasNoDash | src/organizations/organizations.service.ts:233-238 | a name of letters and digits only becomes one word |
| SlugMeaning.FallbacksAreNormal | src/marketplace/marketplace.service.ts:309-314 | both fallback words, `org` and `api`, are slugs in normal form |
| Slug.CandidateIsNormal | src/organizations/organizations.service.ts:243 | appending '-n' keeps the normal form |
| Slug.CandidatesDiffer | src/organizations/organizations.service.ts:240-245 | base, base-2, base-3, ... are pairwise different |
| Slug.FirstFreeUnique | src/organizations/organizations.service.ts:240-246 | there is one first free candidate, so both searches are determined by it |
| Slug.UniqueSlug | src/organizations/organizations.service.ts:232-247 | the search ends after at most (taken slugs + 1) existence checks with base if it is free, else base-k, spelled out, for the least free k >= 2 |
| Slug.Registry.Create | src/marketplace/marketplace.service.ts:308-321 | a creation adds the first free slug and keeps all slugs distinct and in normal form |
| Slug.Registry.CreateAll | src/marketplace/marketplace.service.ts:308-321 | so does any sequence of creations, each measured against the slugs before it |
| WebhookModel.InvHolds | src/webhooks/webhooks.processor.ts:45-157 | every run keeps the row of a delivery readable off what its POSTs got back and the phase of its job |
| WebhookModel.PostsBounded | src/webhooks/webhooks.processor.ts:77-123 | at most three POSTs per delivery and none after an accepted one |
| WebhookModel.StatusOfRun | src/webhooks/webhooks.processor.ts:45-157 | with retries left PENDING before the first failed run and FAILED after it; once the job and its handler are done SUCCESS or DEAD; SUCCESS exactly if the last POST was accepted |
| WebhookModel.AttemptOutcome | src/webhooks/webhooks.processor.ts:77-123 | what one attempt leaves for each outcome: 200 to 299 succeeds and completes the job; another response is stored as the error; a transport error leaves FAILED, or no trace after an earlier response; the third failure exhausts the job |
| WebhookModel.SourceGoneOutcome | src/webhooks/webhooks.processor.ts:54-65 | an attempt whose webhook or event is gone sends nothing and ends the job with a DEAD row |
| WebhookModel.AttemptAccounting | src/webhooks/webhooks.processor.ts:77-120 | stored attempts = POSTs made less the transport errors after an earlier response; never more than the POSTs, and equal if and only if there was no such error |
| WebhookModel.AttemptsCanLag | src/webhooks/entities/webhook-delivery.entity.ts:26-28 | three POSTs, yet the row says one attempt |
| WebhookModel.AttemptsLagPossible | src/webhooks/webhooks.processor.ts:77-120 | a run from the start with three POSTs and one stored attempt |
| WebhookModel.TerminalAbsorbs | src/webhooks/webhooks.processor.ts:51-52 | a SUCCESS or DEAD row never changes again in any continuation; it can only be deleted |
| WebhookModel.NoticeExactlyOnExhaustion | src/webhooks/webhooks.processor.ts:127-151 | the failure event fires at most once per delivery, only after three failed POSTs, and always then if the row is present |
| WebhookModel.NoticesNameTheirRow | src/webhooks/webhooks.processor.ts:141-151 | in every run a delivery carries its event's organization, and each failure event names the webhook and organization of its row |
| WebhookModel.JobTerminates | src/webhooks/webhooks.service.ts:17-22 | from any reachable state a job takes at most its remaining attempts plus the handler's two steps, never more than five |
| WebhookService.FanOutCreates | src/webhooks/webhooks.service.ts:101-106 | every webhook of the fan-out gets one fresh PENDING delivery and one fresh job; everything older stays |
| WebhookService.WebhookPlatform.CreateDeliveryAndEnqueue | src/webhooks/webhooks.service.ts:135-149 | inserts the row and its job |
| WebhookService.WebhookPlatform.DispatchEvent | src/webhooks/webhooks.service.ts:85-107 | records the event and fans it out to exactly the active webhooks of the organization that list the type or '*', each once; the invariant of the runs is kept |
| WebhookService.WebhookPlatform.Attempt | src/webhooks/webhooks.processor.ts:45-124 | one run of `process`: early returns, the POST's outcomes, which saves happen and whether it throws |
| WebhookService.WebhookPlatform.Process | src/webhooks/webhooks.processor.ts:45-124 | the same with the queue's reaction: complete, retry, or exhausted after the third failure |
| WebhookService.WebhookPlatform.OnFailed | src/webhooks/webhooks.processor.ts:127-151 | the final handler: DEAD, then the event if the row is there |
| WebhookService.WebhookPlatform.RunJob | src/webhooks/webhooks.processor.ts:45-157 | a whole job from any reachable point, with rows, webhooks or events deleted before any attempt and before the handler: it posts until one POST is accepted, three were made or something is missing; a row still there ends SUCCESS or DEAD; the event fires exactly if three POSTs failed and the row is there |
| ApiKeyModel.UsageNeverExceeds | src/api-keys/api-keys.service.ts:178-183 | under every interleaving the counter is at most the number of completed recordings |
| ApiKeyModel.WriteExactIff | src/api-keys/api-keys.service.ts:111-183 | whatever the counter was, a recording, revoke or rotate leaves it exact if and only if its snapshot was exact and no recording completed since |
| ApiKeyModel.RecordingExactIff | src/api-keys/api-keys.service.ts:111-183 | after any run the counter equals the completed recordings if and only if the last write to land on the row, recording, revoke or rotate, came from such a snapshot |
| ApiKeyModel.NoOverlapIsExact | src/api-keys/api-keys.service.ts:111-183 | the counter is exact at every point of a run if and only if no write on the key lands for a call that missed a recording |
| ApiKeyModel.OverlapLosesOne | src/api-keys/api-keys.service.ts:178-183 | two overlapping uses are counted once |
| ApiKeyModel.OverlapPossible | src/api-keys/api-keys.service.ts:178-183 | a run from the start with two recordings and the count 1 |
| ApiKeyModel.RevokeLosesOne | src/api-keys/api-keys.service.ts:111-119 | a revoke that overlaps a use puts the old count back |
| ApiKeyModel.RevokeLossPossible | src/api-keys/api-keys.service.ts:111-119 | a run from the start with one recording and the count 0 |
| ApiKeyModel.LookupIffActive | src/api-keys/api-keys.service.ts:167-175 | in every reachable state a presented key authenticates exactly if its row is there, has no revocation time and is not past its expiry |
| ApiKeyModel.StatusMeans | src/api-keys/api-keys.service.ts:216-220 | `statusOf`: revoked exactly with a revocation time; active exactly without one and up to and including the expiry |
| ApiKeyModel.KeysBelong | src/api-keys/api-keys.service.ts:66-84 | in every run a key's application is registered to the key's organization, and only under that pair is the key found |
| ApiKeyModel.CreatedKeyIsOwners | src/api-keys/api-keys.service.ts:66-84 | a created key is found by its creator under the application named and by nobody elsewhere; it is new, unused and valid, and no other key changes |
| ApiKeyModel.CreatedKeyLifetime | src/api-keys/api-keys.service.ts:70-73 | it authenticates for exactly the days asked for, to the millisecond; with none or zero for ever |
| ApiKeyModel.OwnersRevokeEnds | src/api-keys/api-keys.service.ts:111-119 | its owner's revoke with nothing in between ends its validity at that moment and changes no other key |
| ApiKeyModel.ReplacementIsOwners | src/api-keys/api-keys.service.ts:128-158 | a rotation's replacement is found under its predecessor's organization and application, with its name and expiry, unused and unrevoked |
| ApiKeyModel.RemovalTakesKeys | src/applications/applications.service.ts:63-67 | removing an application removes exactly the keys found under it |
| ApiKeyModel.RecordingStamps | src/api-keys/api-keys.service.ts:178-183 | a recording stamps the moment and keeps the key's identity, revocation and every other key |
| ApiKeyModel.RunKeepsKey | src/api-keys/api-keys.service.ts:111-158 | no interleaving un-revokes a key, moves its expiry or changes its owner, and only the removal of its application removes it |
| ApiKeyModel.InvalidForever | src/api-keys/api-keys.service.ts:167-175 | once an issued key fails to authenticate it fails in every continuation |
| ApiKeyModel.LiveKeysAccounted | src/api-keys/api-keys.service.ts:66-158 | under every interleaving: unrevoked keys = creates - revokes + saves that found the key revoked already - live keys gone with their application |
| ApiKeyModel.SequentialKeyCount | src/api-keys/api-keys.service.ts:66-158 | in sequential runs: unrevoked keys = creates - revokes - live keys gone with their application; rotation adds nothing |
| ApiKeyModel.OverlappingRotationsAddOne | src/api-keys/api-keys.service.ts:128-150 | two overlapping rotations of one key leave one live key too many |
| ApiKeyModel.OverlappingRotationsPossible | src/api-keys/api-keys.service.ts:128-150 | a run from the start with one key created and two live |
| ApiKeyService.ApiKeys.RemoveApplication | src/applications/applications.service.ts:63-67 | removes the organization's own application and exactly its keys, by the cascade of `src/api-keys/entities/api-key.entity.ts:44` |
| ApiKeyService.ApiKeys.Create | src/api-keys/api-keys.service.ts:66-84 | a key for an application of the organization, stored and found under exactly that pair, which authenticates and adds one live key; otherwise not found |
| ApiKeyService.ApiKeys.FindValidByPlaintext | src/api-keys/api-keys.service.ts:167-175 | succeeds exactly if the row is active |
| ApiKeyService.ApiKeys.RecordUsage | src/api-keys/api-keys.service.ts:178-183 | writes the snapshot's count plus one and the time, no other column |
| ApiKeyModel.OnlyOwnerRevokes | src/api-keys/api-keys.service.ts:187-199 | tenant scoping: however other organizations' requests name a key, in every run only a revoke or rotate under its own organization and application revokes it |
| ApiKeyService.ApiKeys.Revoke | src/api-keys/api-keys.service.ts:111-119 | not found, already revoked, or exactly this key stops being live, revoked at this moment |
| ApiKeyService.ApiKeys.Rotate | src/api-keys/api-keys.service.ts:128-158 | the old key is revoked, the replacement has its organization, application, name and expiry, and the number of live keys is the same |
| Bill.RoundIsNearest | src/billing/billing.service.ts:148-170 | rounding gives the unique nearest integer, the larger on a tie |
| Bill.BillCharges | src/billing/billing.service.ts:148-170 | for all terms and usage: the base is the price, the total is the base plus the overage cost, nothing within the quota, and on the k-th started block the cents nearest to k rates |
| Bill.ChargesUnique | src/billing/billing.service.ts:148-170 | those facts determine every amount of a bill |
| Bill.PlanPrices | src/billing/billing.constants.ts:18-40 | what each plan costs for any usage, in cents: FREE 0; PRO 4900 plus 50, ENTERPRISE 99900 plus 20, per started 1,000 above the quota |
| Bill.PlanLimits | src/common/enums/plan.enum.ts:12-16 | the two plan tables agree on the limits 100, 5,000 and 50,000, and the quotas are 10,000, 1,000,000 and 50,000,000 |
| Bill.BillWithinQuota | src/billing/billing.service.ts:148-170 | within the quota the bill is exactly the price |
| Bill.BillAddsUp | src/billing/billing.service.ts:148-170 | rounded total = base + rounded overage = price + rounded overage, to the cent |
| Bill.BillMonotone | src/billing/billing.service.ts:148-170 | more usage never costs less |
| Bill.BillPerStartedBlock | src/billing/billing.service.ts:148-170 | any two usages that end in the same started block of 1,000 requests cost the same overage |
| Bill.BillNearProRata | src/billing/billing.service.ts:148-170 | the overage charged, in cents, is at least the pro-rata charge and exceeds it by less than one block's rate, give or take the half cent of rounding |
| Periods.MonthLength | src/billing/billing.service.ts:44-51 | each calendar month lasts its own number of days, leap years included |
| Periods.Epoch | src/billing/billing.service.ts:44-51 | month starts are counted from 1 January 1970 |
| Periods.CalendarIncreases | src/billing/billing.service.ts:44-51 | so month starts strictly increase |
| Periods.PeriodsTile | src/billing/billing.service.ts:44-51 | the end of a stamped period is the start of the next month's, across December too, and a moment lies in it exactly if it lies in that month |
| Periods.OnePeriod | src/billing/billing.service.ts:44-51 | taken as [start, end), a moment lies in at most one period |
| Periods.CountIsSize | src/billing/billing.service.ts:89-96 | the count is the number of log entries from the start to the end inclusive, each counted once |
| Periods.BoundariesCountTwice | src/billing/billing.service.ts:89-99 | for any log, the counts of consecutive periods sum to the whole closed range plus the requests exactly on interior boundaries |
| Periods.UsageExactIff | src/billing/billing.service.ts:89-99 | the sum is right if and only if nothing was logged on an interior boundary |
| Earnings.GetEarnings | src/marketplace/marketplace.service.ts:163-199 | fee + net = gross to the cent; totals equal a join over active subscriptions; the per-API nets differ from the net within the stated bounds; perApi has a row with its price, active subscribers and gross for each of the publisher's APIs, and no other, in descending order of gross |
| Earnings.OwnedExactly | src/marketplace/marketplace.service.ts:164 | the query finds each API of the publisher as often as it is listed, and no other |
| Earnings.CountIsSize | src/marketplace/marketplace.service.ts:170-172 | subscribers are the subscription rows of the API that are active, each counted once |
| Earnings.JoinAddsApi | src/marketplace/marketplace.service.ts:170-177 | one API adds its own active subscriptions and their price to the join |
| Earnings.SortPermutes | src/marketplace/marketplace.service.ts:197 | the sort is descending and a permutation |
| PlatformInvariants.StepKeepsInv | src/billing/billing.service.ts:54-429 | every operation and event keeps: published terms, one marketplace row per pair, rows and links that trace to sessions and Stripe subscriptions of the same metadata |
| PlatformInvariants.InvHolds | src/marketplace/marketplace.service.ts:97-288 | so does every run |
| PlatformResults.LinkageUnique | src/billing/billing.service.ts:300-366 | no Stripe subscription is shared by two billing rows, two marketplace rows or one of each |
| PlatformResults.EventTouchesOneTable | src/marketplace/marketplace.service.ts:234-251 | each event changes rows in at most one of the two subscription tables |
| PlatformResults.HandlersCommute | src/billing/billing-webhook.controller.ts:45-47 | the two handlers of an event commute in every state |
| PlatformResults.PaidAccess | src/marketplace/marketplace.service.ts:97-251 | every row links a subscriber to another organization's API, one per pair; with Stripe enabled a row for a priced API stems from a completed session issued for that same pair |
| PlatformResults.TermsAlwaysPublished | src/billing/billing.service.ts:67-80 | quota, price and overage always equal the plan's published terms |
| PlatformResults.PlanCoherence | src/billing/billing.service.ts:67-86 | without owner patches: organization and subscription agree on the plan, the gateway limit is the plan's for FREE and PRO, and 50,000 is never reached |
| PlatformResults.LimitInSyncIff | src/billing/billing.service.ts:82-83 | applying a plan puts the gateway limit in sync if and only if the plan is FREE or PRO or the limit was 50,000 already |
| PlatformResults.RecordsImmutable | src/billing/billing.service.ts:102-126 | in every run existing records stay as they are, and each states its plan's terms applied to its usage, or one paid amount |
| PlatformReplay.AnyReportsAreOne | src/billing/billing.service.ts:285-312 | confirm calls and webhooks for one session, in any order and number with nothing between, leave what one webhook leaves as soon as one counts, and nothing otherwise |
| PlatformReplay.EventsIdempotent | src/billing/billing.service.ts:301-429 | in every reachable state every billing event but `invoice.paid` is idempotent; each delivery of `invoice.paid` appends the same paid record for the linked organization and changes nothing else, or nothing at all without one |
| PlatformReplay.SupersedeUnlinks | src/billing/billing.service.ts:386-397 | activating another Stripe subscription unlinks the old one and does not cancel it |
| PlatformReplay.DropUnlinks | src/billing/billing.service.ts:187-195 | dropping to FREE cancels the Stripe subscription, unlinks it and sets both plans to FREE |
| PlatformReplay.DeletionIgnoredIff | src/billing/billing.service.ts:314-323 | a deletion event leaves billing unchanged if and only if no row is linked to the subscription |
| PlatformReplay.StepStaysUnlinkedIff | src/billing/billing.service.ts:285-312 | an unlinked Stripe subscription stays unlinked in a step if and only if the step is not a report of its session that counts |
| PlatformReplay.DroppedStaysDropped | src/billing/billing.service.ts:314-323 | once superseded or dropped, a Stripe subscription stays unlinked at every point of a run, its deletion ignored, if and only if no step is a counting report of its session |
| PlatformReplay.PaidPlanLifecycle | src/billing/billing.service.ts:303-323 | completion puts the organization on the plan, deletion takes it to FREE, and a late replay of the completion puts it back on the paid plan |
| PlatformReplay.AccountsHold | src/billing/billing.service.ts:225-232 | no payout account is ever shared by two organizations |
| PlatformAccess.GainsRowIff | src/marketplace/marketplace.service.ts:97-251 | a pair without a row gains one in a step if and only if the step is a subscribe call granted at once or a counting report of a completed session for that pair, however old |
| PlatformAccess.StaysBackedIff | src/marketplace/marketplace.service.ts:202-288 | a step keeps every active row off subscriptions the services cancelled or Stripe reported deleted, if and only if it is not a counting report of a session whose subscription already is one of those |
| PlatformAccess.PaidForIff | src/marketplace/marketplace.service.ts:202-288 | over every run no active row is ever linked to a subscription the services cancelled or Stripe reported deleted, if and only if no such late report occurs |
| PlatformAccess.ConfirmAfterUnsubscribe | src/marketplace/marketplace.service.ts:202-229 | after unsubscribing, the organization's own confirm call for its old session recreates an active row on the cancelled subscription |
| PlatformRuns.ConfirmAfterUnsubscribePossible | src/marketplace/marketplace.service.ts:202-229 | a run from the start that does so |
| PlatformAccess.ConfirmAfterDeletion | src/marketplace/marketplace.service.ts:202-251 | after Stripe reported the subscription deleted, the confirm call for its session makes the row active again on it |
| PlatformRuns.ConfirmAfterDeletionPossible | src/marketplace/marketplace.service.ts:202-251 | a run from the start that does so |
| PlatformAccess.LosesRowIff | src/marketplace/marketplace.service.ts:216-288 | a subscription that nobody cancelled loses its row in a step if and only if the step activates another session of the same pair |
| PlatformAccess.AbandonedAllAlong | src/marketplace/marketplace.service.ts:216-288 | from then on no call cancels it or links it again, at any point of a run, if and only if its own session is never reported again |
| PlatformRuns.AbandonedPossible | src/marketplace/marketplace.service.ts:97-288 | a run from the start in which two paid sessions leave one subscription without a row, and unsubscribing cancels only the other |
| PlatformPlans.PlanAfterStep | src/billing/billing.service.ts:54-86 | exactly which plan and which month each step leaves on a subscription: those of a plan it applied, else the old ones, else FREE where it was only now created |
| PlatformColumns.ColumnsAfterStep | src/billing/billing.service.ts:54-429 | exactly what each step leaves in the other columns of a subscription: ACTIVE after a plan application or an `active` report, PAST_DUE after `past_due` or a failed payment; the link dropped by a downgrade or deletion, replaced by a bought session; the payout flag as Stripe answered; a customer or account only where there was none; else unchanged |
| PlatformColumns.HasSubIff | src/billing/billing.service.ts:54-60 | an organization has a subscription after a step exactly if it had one or the step used it |
| PlatformColumns.PastDueIff | src/billing/billing.service.ts:324-348 | over every run a subscription is past due if and only if the last step that set its status was a `past_due` or failed-payment report about it |
| PlatformColumns.LinkedIff | src/billing/billing.service.ts:180-207 | over every run it is linked to a Stripe subscription if and only if the last step that set its link set that one |
| PlatformColumns.PayoutsEnabledIff | src/billing/billing.service.ts:255-361 | over every run payouts are stored as enabled if and only if that was Stripe's last answer or report about its account |
| PlatformLimits.OrgAfterStep | src/organizations/organizations.service.ts:211-225 | exactly which plan and limit each step leaves on an organization: the owner's patch, an applied plan with its fixed limit, FREE and 100 when its subscription is created; else the old ones |
| PlatformLimits.OrgIsNewIff | src/organizations/entities/organization.entity.ts:31-38 | an organization appears only by its creation, on FREE with the limit 100 |
| PlatformLimits.LimitIsLastSet | src/organizations/organizations.service.ts:211-225 | after every run the limit in force is the last one set, or the first one if none was |
| PlatformLimits.FirstUseResetsIff | src/billing/billing.service.ts:54-60 | but for patches and plan applications a step changes an organization's plan or limit if and only if it creates the subscription of one that is not at FREE and 100, which it then is |
| PlatformLimits.PatchLostPossible | src/billing/billing.service.ts:54-60 | a run in which the owner's explicit limit is lost when the first invoice is closed |
| PlatformLedger.SessionsAfterStep | src/billing/billing.service.ts:197-206 | a step opens a session exactly for a paid plan, or a priced API whose publisher can be paid, and then one: for that plan or pair, open, charged to the organization's customer |
| PlatformLedger.OneCustomerEach | src/billing/billing.service.ts:374-384 | in every run each session is charged to its organization's own Stripe customer, which no other organization has |
| PlatformLedger.CustomerAndAccountKept | src/billing/billing.service.ts:225-397 | an organization keeps its Stripe customer and its payout account in every continuation |
| PlatformLedger.CanceledAfterStep | src/billing/billing.service.ts:187-191 | only a downgrade and an unsubscription cancel at Stripe, and exactly the subscription they give up |
| PlatformLedger.RecordsAfterStep | src/billing/billing.service.ts:102-429 | a step appends a record exactly if it closes an invoice, billing the usage on the plan's terms, or reports a paid one of a linked subscription, whose amount is the whole of it; with the subscription's plan and month |
| PlatformLedger.RowsAfterStep | src/marketplace/marketplace.service.ts:97-288 | exactly what a step does to a marketplace row: removed by its own organization's unsubscription, activated and linked by a counting report of its pair, cancelled by the deletion of its subscription, else unchanged; and a new row is active, and linked to what paid for it |
| PlatformPlans.PaidPlansIff | src/billing/billing.service.ts:174-207 | over every run each subscription's paid plan stems from a completed session for that organization and plan, if and only if no `subscribe` call sets one that has none |
| PlatformPlans.UnpaidPlanPossible | src/billing/billing.service.ts:62-65 | with Stripe enabled, a run that reaches PRO without any session |
| PlatformPlans.InvoiceIsCurrentIff | src/billing/billing.service.ts:101-126 | an invoice closed after any run bills the current month if and only if the last plan application happened in it |
| PlatformPlans.StampedMonthsExactIff | src/billing/billing.service.ts:101-126 | if the plan is applied anew each month before closing, the invoices of n months bill every request once if and only if none was logged on an interior boundary |
| PlatformPlans.StaleMonthsRun | src/billing/billing.service.ts:101-126 | without a new application, n invoices closed in n months all bill the first period |
| PlatformService.OrganizationsService.UpdateRateLimit | src/organizations/organizations.service.ts:211-225 | FREE and PRO bring 100 and 5,000, ENTERPRISE or no plan takes an explicit limit or keeps what was there; unknown organizations are left alone |
| PlatformService.BillingService.ApplyPlan | src/billing/billing.service.ts:67-86 | stamps terms and month, saves, then updates the organization, which fails if it is gone |
| PlatformService.BillingService.EnsureSubscription | src/billing/billing.service.ts:54-60 | creates a FREE subscription only where there is none |
| PlatformService.BillingService.Subscribe | src/billing/billing.service.ts:63-65 | the plan and its published terms on both rows, invariant kept |
| PlatformService.BillingService.CreateCheckout | src/billing/billing.service.ts:180-207 | FREE cancels and downgrades at once; a paid plan only opens a session for it and leaves an existing plan alone; without Stripe it fails |
| PlatformService.BillingService.ConfirmCheckout | src/billing/billing.service.ts:285-297 | not implemented without Stripe; otherwise activates exactly a completed plan session of this organization |
| PlatformService.BillingService.ActivateFromStripe | src/billing/billing.service.ts:386-397 | applies the plan and links customer and subscription |
| PlatformService.BillingService.GetUsage | src/billing/billing.service.ts:89-99 | charges the plan's price and, above its quota, the cents nearest to one rate per started 1,000 of the inclusive count of the log over the subscription's period |
| PlatformService.BillingService.CloseInvoice | src/billing/billing.service.ts:102-126 | appends exactly one open record for the subscription's period, which charges the plan's price and the started blocks of the inclusive count of the log over that period |
| PlatformService.BillingService.RecordPaidInvoice | src/billing/billing.service.ts:407-429 | appends a paid record for the linked row, and nothing without one |
| PlatformService.BillingService.HandleStripeEvent | src/billing/billing.service.ts:301-366 | the billing handler's effect for each event |
| PlatformService.BillingService.EnsureConnectAccount | src/billing/billing.service.ts:225-232 | reuses the payout account or opens one; not implemented where it would need Stripe and there is none |
| PlatformService.BillingService.GetConnectStatus | src/billing/billing.service.ts:255-278 | ready exactly if there is an account and Stripe says so, or, where Stripe cannot tell, the stored answer does; the answer is stored |
| PlatformService.MarketplaceService.Publish | src/marketplace/marketplace.service.ts:40-56 | only a publisher publishes, and the API is its own |
| PlatformService.MarketplaceService.ConnectOnboard | src/marketplace/marketplace.service.ts:148-151 | only a publisher is onboarded, and the account it gets is its own alone |
| PlatformService.MarketplaceService.CheckSubscribable | src/marketplace/marketplace.service.ts:98-109 | goes on exactly if a subscriber asks for an existing API and the pair has no row; conflict exactly if it has one |
| PlatformService.MarketplaceService.Subscribe | src/marketplace/marketplace.service.ts:97-143 | a free API grants access at once; a priced one grants nothing and opens a session for exactly this pair, and is refused exactly if the publisher cannot be paid |
| PlatformService.MarketplaceService.ActivateSubscription | src/marketplace/marketplace.service.ts:216-230 | finds or creates the pair's row, activates and links it |
| PlatformService.MarketplaceService.ConfirmSubscription | src/marketplace/marketplace.service.ts:202-213 | not implemented without Stripe; otherwise activates exactly a completed marketplace session of this organization |
| PlatformService.MarketplaceService.HandleStripeEvent | src/marketplace/marketplace.service.ts:234-251 | the marketplace handler's effect for each event |
| PlatformService.MarketplaceService.Unsubscribe | src/marketplace/marketplace.service.ts:277-288 | removes exactly the organization's own row and cancels its Stripe subscription |
| PlatformService.DeliverEvent | src/billing/billing-webhook.controller.ts:35-54 | both services handle the event, and the invariant holds after it |

## Left out

Assumptions about what lies outside the services:

- Stripe never reuses an id, a session's metadata never changes, and a completed session (the source accepts `paid` or `complete`) keeps its subscription; a session's customer is always known.
- One worker runs a job at a time, saves do not fail (but for a key gone with its application), and one clock is shared by the service and Redis. Application ids are never reused.
- SHA-256 is injective (a constructor) and new secrets are fresh numbers; HMAC, bcrypt, JWT and random bytes are not modelled.
- Calls that pass the organization guard reach only organizations that exist; the billing calls carry that as a precondition.
- Organizations, APIs, contracts and sessions are never deleted, as no service deletes them; a cancellation at Stripe that fails is only logged by the source and counts as asked for.

Stated weaker:

- RateLimitCounts.SlidingBound: counts on-time requests only, because a request counted after its counter expired is told 1 again and can always be admitted (`LateHitCountsAgain`).
- RateLimitCache.StoredLimitBoundsAdmissions: counts on-time requests only, for the same reason.
- RateLimitAnswers.StoredLimitBoundsAnswers: counts on-time requests only, for the same reason.
- RateLimitAnswers.AllowedAnswers: counts on-time requests only, for the same reason.
- PlatformService.OrganizationsService.UpdateRateLimit: stops at the save; the deletion of the cached limit is `RateLimitService.RateLimiter.UpdateRateLimit`'s, as the platform state holds no cache.

Simplifications of the source:

- Each billing and marketplace operation is one atomic step, so lost updates between concurrent saves of one billing row are not modelled; the limiter, the webhooks and the API keys do interleave.
- One delivery attempt, from the row's load to its save, is one step; rows and sources are deleted only between attempts.
- The Redis counter and the cached limit are kept as numbers; `Decimal.ParsePrint` shows that the text form loses nothing.
- Money is exact: whole cents and 1/10000 dollar, halves rounded up (section 21.1.3.3 of ECMA-262 on exact values); IEEE floating-point effects are excluded, and so are negative amounts.
- Billing rows carry the month they were stamped in; `Periods` relates months to milliseconds, and an organization's request log is a parameter of `GetUsage` and `CloseInvoice`.
- Session metadata is typed: a session is a plan session with a known plan, or a marketplace session with both ids.
- Slugs: ASCII names only; Unicode case mapping and white space are excluded. Creation reads the taken slugs and inserts in one step, so two concurrent creations that find the same slug free are not modelled (the unique column rejects the second).
- The stable order of equal entries in the earnings sort is kept by the model but not stated.

Not modelled, because it is plumbing or would only add easy members:

- Response bodies, `deliveredAt`, names, e-mail addresses, URLs, descriptions, masked keys and other columns no property depends on.
- Creating organizations and memberships, roles, list endpoints, the portal link, test webhooks, listing invoices, catalogue browsing.
- Queue backoff delays, job retention, Slack, SMTP, in-app notifications and the consumers of the emitted events.
- Controllers, DTO validation, guards, modules, configuration, seeding, audit, feature flags, analytics, logging.
