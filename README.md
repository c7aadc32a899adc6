# PostHog livestream consumer, assistant helpers and billing view — a Dafny model

This project models three independent pieces of decision logic from PostHog:

- **The livestream Kafka consumer** (`livestream/kafka.go`, module `Livestream`).
  Each message read from the events topic is normalised into a `PostHogEvent`:
  - the uuid and distinct id always come from the wrapper;
  - the token is chosen by a fixed precedence;
  - the IP comes from the `$ip` property when that key is present, otherwise from the wrapper;
  - the event is geolocated only when that IP is non-empty.

  The event is then sent once to the outgoing stream and once to the stats stream. A failed read sends nothing.
  `PostHogKafkaConsumer` is a class whose two streams are `seq` fields. `Normalize` builds the event step by step, as the loop body does. `Consume` runs the loop over a sequence of read outcomes. Both are proved against the functions `Normalized` and `Emitted`.
- **The assistant helpers** (`frontend/src/scenes/max/utils.ts`, module `AssistantUtils`).
  - Five type guards over a nullable message union.
  - The four identity casts from assistant queries to general queries. Each cast's result type is a subset type, so Dafny checks that the query still belongs to its kind.
  - `castAssistantQuery`, which returns a `Result`. Its error is "Unsupported query type: " followed by the kind.
- **The billing scene** (`frontend/src/scenes/billing/Billing.tsx`, module `BillingScene`).
  These are the pure decisions the component makes from its store values:
  - which of spinner, restricted notice, fetch error or dashboard is shown;
  - on the dashboard, which amounts are shown, when the CTA hero, portal button and unsubscribe card appear, their labels, and which products are listed.

Shared `Option` and `Result` types live in module `Wrappers`.

Collaborators that are foreign code are parameters:
- `encoding/json` decoding and `GeoLocator.Lookup` are `const` function fields of the consumer.
- The clock reading `time.Now()` is carried with each delivered message.
- `parseFloat(amount) > 0` for the projected total is a `string -> bool` parameter.

`billingError` takes no part in choosing the top-level branch. The fetch-error branch is chosen only by "no snapshot and not loading" (Billing.tsx:90). `billingError` only adds a banner inside the dashboard (Billing.tsx:139-143), and the model does the same.

## Model

| member | source | states |
|---|---|---|
| `Livestream.DecodedWrapper` | livestream/kafka.go:100-105 | the wrapper starts from its zero value: each field the document set holds its value, every other field is "" |
| `Livestream.DecodeErrorIsOnlyLogged` | livestream/kafka.go:101-120 | a reported decoding error, of the wrapper or of the payload, changes neither decoded record, so the message is still normalised and sent |
| `Livestream.DecodedEvent` | livestream/kafka.go:107-120 | before decoding, Token and Event are "", Properties is an empty map, Timestamp is the clock reading, and Uuid, DistinctId, Lat and Lng are zero; each field the payload sets (including the untagged Uuid, DistinctId, Lat and Lng) replaces its starting value, each field it does not set keeps it |
| `Livestream.FirstNonEmpty` | livestream/kafka.go:125-133 | the result is "" exactly when every candidate is empty; otherwise it is the first non-empty candidate |
| `Livestream.ChosenToken` | livestream/kafka.go:125-133 | token precedence: a non-empty wrapper token wins; otherwise a non-empty `api_key` is kept; otherwise the `token` property is used if it is a string; otherwise the token is "" |
| `Livestream.ChosenIp` | livestream/kafka.go:135-146 | when `$ip` is present it alone decides: its string value, or "" when it is not a string; the wrapper IP is used only when `$ip` is absent |
| `Livestream.PostHogKafkaConsumer.constructor` | livestream/kafka.go:66-72 | a new consumer keeps its topic, geolocator and decoders, and both streams start empty |
| `Livestream.PostHogKafkaConsumer.Normalized` | livestream/kafka.go:98-153 | the reference event for one message: uuid and distinct id from the wrapper, the token by `ChosenToken`, event, properties and timestamp as decoded, and coordinates from the geolocator exactly when the IP chosen by `ChosenIp` is non-empty, the decoded ones otherwise |
| `Livestream.PostHogKafkaConsumer.Normalize` | livestream/kafka.go:98-153 | building the event step by step in the order of the loop body yields exactly the event `Normalized` describes (see its row) |
| `Livestream.PostHogKafkaConsumer.EmittedBy` | livestream/kafka.go:81-157 | a failed read emits nothing; a delivered message emits exactly its normalised event, whether or not its decoding reported an error |
| `Livestream.PostHogKafkaConsumer.Emitted` | livestream/kafka.go:81-157 | a run of reads emits exactly one event per delivered message |
| `Livestream.PostHogKafkaConsumer.EmittedAppend` | livestream/kafka.go:81-157 | the events of two consecutive runs of reads are those of the first run followed by those of the second |
| `Livestream.PostHogKafkaConsumer.FailedReadEmitsNothing` | livestream/kafka.go:82-96 | a failed read (timeout, transport or other error) anywhere in a run leaves the emitted events unchanged, and the loop goes on with the next read |
| `Livestream.PostHogKafkaConsumer.DeliveryEmitsOnce` | livestream/kafka.go:98-156 | a delivered message contributes exactly one event, its normalised event, in its own position among the others |
| `Livestream.PostHogKafkaConsumer.Consume` | livestream/kafka.go:81-157 | after the loop, the outgoing stream and the stats stream have each been extended by the same events, `Emitted(outcomes)`, in read order |
| `AssistantUtils.TagOf` | frontend/src/scenes/max/utils.ts:19-39 | `message?.type` is undefined exactly for a null or undefined message, and is the message's tag otherwise |
| `AssistantUtils.IsReasoningMessage` | frontend/src/scenes/max/utils.ts:19-21 | true exactly for a present message tagged Reasoning, so false for null and undefined |
| `AssistantUtils.IsVisualizationMessage` | frontend/src/scenes/max/utils.ts:23-27 | true exactly for a present message tagged Visualization |
| `AssistantUtils.IsHumanMessage` | frontend/src/scenes/max/utils.ts:29-31 | true exactly for a present message tagged Human |
| `AssistantUtils.IsAssistantMessage` | frontend/src/scenes/max/utils.ts:33-35 | true exactly for a present message tagged Assistant |
| `AssistantUtils.IsFailureMessage` | frontend/src/scenes/max/utils.ts:37-39 | true exactly for a present message tagged Failure |
| `AssistantUtils.GuardsAreExclusive` | frontend/src/scenes/max/utils.ts:19-39 | no guard accepts null or undefined; at most one guard accepts any value; exactly one accepts each message carrying one of the five tags |
| `AssistantUtils.CastAssistantTrendsQuery` | frontend/src/scenes/max/utils.ts:43-45 | identity on a trends query, and the result is a `TrendsQuery` |
| `AssistantUtils.CastAssistantFunnelsQuery` | frontend/src/scenes/max/utils.ts:46-48 | identity on a funnels query, and the result is a `FunnelsQuery` |
| `AssistantUtils.CastAssistantRetentionQuery` | frontend/src/scenes/max/utils.ts:49-51 | identity on a retention query, and the result is a `RetentionQuery` |
| `AssistantUtils.CastAssistantHogQLQuery` | frontend/src/scenes/max/utils.ts:52-54 | identity on a HogQL query, and the result is a `HogQLQuery` |
| `AssistantUtils.CastAssistantQuery` | frontend/src/scenes/max/utils.ts:55-68 | succeeds exactly for the kinds Trends, Funnels, Retention and HogQL, and then returns its input unchanged; any other kind gives the error "Unsupported query type: " followed by the kind |
| `AssistantUtils.KindTestsAreExclusive` | frontend/src/scenes/max/utils.ts:58-65 | the four kind tests exclude each other, so the fixed order Trends, Funnels, Retention, HogQL never lets an earlier test take a later kind |
| `BillingScene.HasUnconditionalPlan` | frontend/src/scenes/billing/Billing.tsx:307 | `plans.some(plan => !plan.included_if)`: true exactly when some plan has no (or an empty) `included_if` |
| `BillingScene.ListedProducts` | frontend/src/scenes/billing/Billing.tsx:306-312 | a product is listed exactly when it is in the snapshot and is not inclusion-only or has a plan without `included_if`; the list is no longer than the snapshot's |
| `BillingScene.ListedProductsAppend` | frontend/src/scenes/billing/Billing.tsx:306-312 | the filter works element by element over concatenation, so it keeps the products' original order |
| `BillingScene.ListedProductsIdempotent` | frontend/src/scenes/billing/Billing.tsx:306-312 | filtering the listed products again changes nothing |
| `BillingScene.PlatformAndSupportProduct` | frontend/src/scenes/billing/Billing.tsx:111 | the first product whose type is `platform_and_support`; none exactly when no product has that type |
| `BillingScene.TrialBannerOf` | frontend/src/scenes/billing/Billing.tsx:145-160 | the trial banner shows exactly during a trial, with its target and expiry; the auto-subscribe sentence appears exactly for an `autosubscribe` trial |
| `BillingScene.CtaHero` | frontend/src/scenes/billing/Billing.tsx:162-166 | the CTA hero shows exactly when the account is not managed, has no active subscription and no trial, and a platform-and-support product exists; it offers the first such product |
| `BillingScene.UnsubscribeCard` | frontend/src/scenes/billing/Billing.tsx:313-320 | the unsubscribe card shows exactly when the subscription level is `paid` and a platform-and-support product exists; it offers the first such product |
| `BillingScene.PortalButtonOf` | frontend/src/scenes/billing/Billing.tsx:280-296 | the portal button shows exactly outside onboarding when both the customer id and the portal URL are present and non-empty; it links to the portal URL; its label is "Manage card details and invoices" with an active subscription and "View past invoices" otherwise |
| `BillingScene.DisplayedTotal` | frontend/src/scenes/billing/Billing.tsx:196-204 | a total shows the after-discount amount when the discount percent is set and non-zero, and the amount before credits otherwise (a zero percent counts as no discount) |
| `BillingScene.AppliedDiscount` | frontend/src/scenes/billing/Billing.tsx:245-257 | the applied-discount block shows exactly when the discount percent is set and non-zero, and then shows that percent, never 0 |
| `BillingScene.AppliedDiscountAsWritten` | frontend/src/scenes/billing/Billing.tsx:245 | as written, the block shows exactly for a non-zero percent and displays that percent, and a percent of 0 renders as the bare number 0 |
| `BillingScene.ZeroDiscountRendersStrayNumber` | frontend/src/scenes/billing/Billing.tsx:245 | with a discount percent of 0, the code as written renders a stray 0 where the intended version renders nothing; on every other input the two agree |
| `BillingScene.BillTotalsOf` | frontend/src/scenes/billing/Billing.tsx:186-260 | the current total follows `DisplayedTotal`; the projected total shows exactly when its amount is non-empty and parses as positive, and then follows the same discount rule; credits show exactly when the credit amount is non-empty; the applied discount follows `AppliedDiscount` |
| `BillingScene.PeriodSummaryOf` | frontend/src/scenes/billing/Billing.tsx:183-277 | the period summary shows exactly outside onboarding when there is a billing period. With an active subscription it holds exactly the totals `BillTotalsOf` gives, so the page's amounts follow the discount rule; without one it holds no totals. It is labelled "Billing period" with a subscription and "Cycle" without one. It carries the free-allocation note exactly without one |
| `BillingScene.DashboardOf` | frontend/src/scenes/billing/Billing.tsx:110-322 | the dashboard shows the store's billing error as a banner exactly when there is one, and each other block (trial banner, CTA hero, period summary, portal button, product list, unsubscribe card) as its own decision function gives it |
| `BillingScene.ErrorRemediation` | frontend/src/scenes/billing/Billing.tsx:97-103 | the fetch-error banner offers a bug report exactly on cloud, and the sales mailto link otherwise, including when preflight is not loaded |
| `BillingScene.Billing` | frontend/src/scenes/billing/Billing.tsx:68-108 | spinner exactly when there is no snapshot and loading; otherwise the restricted notice exactly when there is a non-empty restriction reason; otherwise the fetch-error banner exactly when there is no snapshot; the dashboard exactly when a snapshot is present and there is no restriction, so the dashboard never lacks a snapshot |
| `BillingScene.DashboardOffersPlatformProduct` | frontend/src/scenes/billing/Billing.tsx:110-319 | on the dashboard, the product list is the filtered snapshot products, and the CTA hero and the unsubscribe card offer the same product: the first platform-and-support product |

## Left out

- JSON decoding (`encoding/json`) is a foreign library. The consumer takes it as two functions returning the fields the document set plus an error flag; a syntax error corresponds to a decoding that sets nothing. A JSON `null` for `properties` (a nil map in Go) is represented by an empty map, which behaves the same for lookups.
- `GeoLocator.Lookup` is a foreign call. It is a function from the IP string to latitude, longitude (as `real`) and an error. Whether an error is reported to Sentry is not modelled.
- The consume loop never ends in Go. `Consume` runs it over a finite sequence of read outcomes, and its contract covers any finite prefix of the endless run.
- The two Go channel sends are appends to two `seq` fields. Blocking and concurrency are not modelled.
- Kafka client plumbing is not modelled: consumer configuration (kafka.go:53-64), `SubscribeTopics` and `log.Fatalf` (kafka.go:76-79), and `Close`.
- Prometheus counters, Sentry capture and log lines are not modelled. The read-error kinds are kept in `ReadError`, but every kind leads to "emit nothing and continue".
- Each delivered message carries its own timestamp, standing for `time.Now()` formatted as the source formats it.
- The message and query schemas are not part of this model. `RootAssistantMessage` keeps only its tag and content. `Unlisted` stands for any tag the guards do not test. TypeScript's static narrowing has no runtime content and is not modelled.
- `isTrendsQuery`, `isFunnelsQuery`, `isRetentionQuery` and `isHogQLQuery` are not part of this model. Each is modelled as a test of `kind` against "TrendsQuery", "FunnelsQuery", "RetentionQuery" and "HogQLQuery".
- Presentational and effectful parts of Billing.tsx are not modelled:
  - JSX, CSS and `useResizeBreakpoints`;
  - `humanFriendlyCurrency`, `toSentenceCase` and dayjs formatting;
  - the days-remaining clock computation (line 266) and the credit-expiry text (lines 230-235);
  - the analytics `useEffect` (lines 57-61);
  - the router redirect (lines 53-55);
  - the license form (lines 114-137) and `CreditCTAHero`.
- `parseFloat(...) > 0` (Billing.tsx:207-208) is a float parse. It is an abstract `parsesPositive` parameter. NaN is not modelled, so number truthiness means "present and non-zero".
- `useRestrictedArea` and the billing store are not modelled. Their results are the fields of `BillingInputs`.

## Findings

| source | as written | input that shows it | evidently intended | confidence | as-written member | corrected member |
|---|---|---|---|---|---|---|
| frontend/src/scenes/billing/Billing.tsx:245 | `{billing?.discount_percent && (<div>…</div>)}`: when the percent is falsy, `&&` yields the percent itself, and React prints a number | a snapshot with an active subscription, a billing period and `discount_percent: 0` | no applied-discount block and nothing else when the percent is 0, matching the totals, which treat 0 as no discount (lines 196, 217) | not executed; medium (depends on the billing service ever sending 0) | `BillingScene.AppliedDiscountAsWritten` (counterexample in `BillingScene.ZeroDiscountRendersStrayNumber`) | `BillingScene.AppliedDiscount`, used by `BillingScene.BillTotalsOf` |
