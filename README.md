# AFCM ticketing core in Dafny

This project models the server side of the AFCM ticketing system and its
offline web shell, and proves properties of the model. It covers:

- **create-order** (`supabase/functions/create-order/index.ts`). It validates
  a registration payload and reuses the caller's pending order, or resends its
  invoice, when there is one. Otherwise it registers the attendee and a
  pending order through the `create_pending_registration` procedure, requests
  a Paystack invoice and records that invoice on the order.
- **paystack-webhook** (`supabase/functions/paystack-webhook/index.ts`). It
  authenticates a Paystack delivery by its HMAC-SHA-512 signature, asks the
  gateway whether the payment request is paid and finds the order by request
  code. It then marks a pending order paid, promotes the attendee, issues at
  most one signed ticket per order and queues the ticket notification.
- **the shared helpers** it uses:
  - `loadConfig` (`_shared/config.ts`);
  - the QR ticket signer `createSignedTicketPayload` (`_shared/qr.ts`), which
    uses HMAC-SHA-256 and lowercase hex;
  - the calendar attachment `buildTicketIcs` (`_shared/ics.ts`), whose lines
    follow RFC 5545 and are encoded as base64 per RFC 4648 section 4.
- **the PWA service worker** (`apps/web_flutter/web/pwa_service_worker.js`).
  Install caches the application shell and activate deletes every other
  cache. A GET for the caller's ticket is answered network-first and every
  other GET cache-first. Only status-200 responses are cached.

## Layout

- `wrappers.dfy`: `Option` and `Result`.
- `bytes.dfy`: bytes and UTF-8 encoding.
- `hex.dfy`: lowercase base16.
- `base64.dfy`: RFC 4648 base64.
- `text.dfy`: JavaScript white space, `trim`, `includes` and ASCII upper-casing.
- `crypto.dfy`: the HMAC functions, taken as inputs with fixed digest lengths.
- `config.dfy`, `qr.dfy`, `ics.dfy`: one module per shared source file.

The three handlers follow one pattern.

- A pure function gives the reply and the store afterwards:
  - `CreateOrder.Respond`;
  - `Webhook.Deliver`;
  - `ServiceWorker.Fetch`, `ServiceWorker.Installed` and `ServiceWorker.Pruned`.
- A class holds the tables or caches that the source updates in place:
  `CreateOrder.Service`, `Webhook.Store` and `ServiceWorker.Worker`.
- Each handler method is proved to have the effect of its function:
  `ensures (reply, Snapshot()) == Respond(old(Snapshot()), …)`.
- The `…Properties` modules prove what the functions guarantee.

Inputs stand in for everything outside the store:
- the network and the gateway's answers;
- the clock (`created_at`, the due date, `paid_at`);
- fresh ids, the ticket serial and the QR image;
- the failing call of a request, if any.

## Model

| member | source | states |
|---|---|---|
| Config.GetOr | supabase/functions/_shared/config.ts:22-24 | `??` falls back only when the variable is absent; a variable set to "" stays "" |
| Config.LoadConfig | supabase/functions/_shared/config.ts:19-50 | the first missing or empty secret, in the order PAYSTACK_SECRET_KEY, SITE_URL, QR_SECRET, is the error; success exactly when all three are set and non-empty, with the secrets unchanged, the fixed Paystack base URL, and TZ / EMAIL_FROM defaulted |
| Qr.CreateSignedTicketPayload | supabase/functions/_shared/qr.ts:13-32 | the claims are copied unchanged; the checksum is 64 lowercase hex digits that decode to the HMAC-SHA-256 of the colon-joined claims under the secret |
| Qr.SignedPayloadVerifies | supabase/functions/_shared/qr.ts:18-31 | every payload the signer produces passes the checksum check and carries its claims back |
| Qr.SameTextSameChecksum | supabase/functions/_shared/qr.ts:18 | the checksum depends on the claims only through the joined text |
| Qr.ColonInFieldCollides | supabase/functions/_shared/qr.ts:18 | fields are not escaped: two different claim records with ':' inside fields get the same checksum |
| Qr.SignedDataDeterminesIds | supabase/functions/_shared/qr.ts:18 | when the three ids hold no ':', the signed text parses back to them and to `validFrom:validTo` |
| Ics.IcsLines | supabase/functions/_shared/ics.ts:29-46 | the document has sixteen lines |
| Ics.BuildTicketIcs | supabase/functions/_shared/ics.ts:48-50 | `base64Content` decodes to the UTF-8 bytes of `raw`, and those bytes decode back to `raw` |
| Ics.SplitJoin | supabase/functions/_shared/ics.ts:48 | joining CR-free lines with CRLF and splitting at CRLF gives the lines back |
| Ics.RawLines | supabase/functions/_shared/ics.ts:29-48 | with CR-free values, a client splitting `raw` at CRLF reads exactly the sixteen lines |
| Ics.RawLayout | supabase/functions/_shared/ics.ts:29-46 | the VEVENT is nested in the VCALENDAR; UID, SUMMARY, DTSTART and DTEND carry the uid, the pass name and the timezone-qualified times |
| Ics.RawLinks | supabase/functions/_shared/ics.ts:41-43 | DESCRIPTION and URL end in `<siteUrl>/me/ticket`; ATTENDEE carries the name and `mailto:` address |
| Ics.RawFrame | supabase/functions/_shared/ics.ts:29-48 | whatever the values, `raw` starts with BEGIN:VCALENDAR CRLF and ends with CRLF END:VCALENDAR, with no trailing CRLF |
| Ics.PassNameInjectsLine | supabase/functions/_shared/ics.ts:37 | values are not escaped: a CRLF in the pass name splits SUMMARY and a client reads seventeen lines |
| Hex.DecodeEncode | supabase/functions/_shared/qr.ts:27-29 | the lowercase two-digit hex text of a digest decodes back to the digest |
| Hex.EncodeInjective | supabase/functions/_shared/qr.ts:27-29 | different digests never share a hex text |
| Bytes.Utf8RoundTrip | supabase/functions/_shared/ics.ts:49 | the UTF-8 bytes `TextEncoder` produces for a well-formed string decode back to that string |
| Base64.DecodeEncode | supabase/functions/_shared/ics.ts:49 | the base64 text of a byte string decodes back to the byte string |
| Base64.EncodeInjective | supabase/functions/_shared/ics.ts:49 | different byte strings never share a base64 text |
| Webhook.ExpectedSignature | supabase/functions/paystack-webhook/index.ts:231-242 | the expected header is 128 lowercase hex digits |
| Webhook.VerifySignature | supabase/functions/paystack-webhook/index.ts:229-244 | true exactly when the header is present and equals the lowercase hex HMAC-SHA-512 of the body |
| Webhook.RequestCode | supabase/functions/paystack-webhook/index.ts:32-35 | a string `request_code` wins, even an empty one, which then yields no code; a null or absent one falls back to `payment_request_code`; only non-empty codes are kept |
| Webhook.FindDay | supabase/functions/paystack-webhook/index.ts:315-316 | a found record has the day number and is in the list; none found means no record has it |
| Webhook.ComputePassWindow | supabase/functions/paystack-webhook/index.ts:304-326 | null exactly when the start or the end day has no record; otherwise the start day's doors-open and the end day's doors-close |
| Webhook.FetchOrderByRequestCode | supabase/functions/paystack-webhook/index.ts:246-259 | no row when no order has the code, the row when exactly one has it, an error for several |
| Webhook.Store.HandleWebhook | supabase/functions/paystack-webhook/index.ts:18-227 | the reply and the new store are those of `Deliver` on the old store |
| Webhook.Store.ReadPhase | supabase/functions/paystack-webhook/index.ts:31-98 | reads only: the stage equals `Prepare` on the current store |
| Webhook.Store.WritePhase | supabase/functions/paystack-webhook/index.ts:100-128 | the reply and the new store are those of `Commit` |
| Webhook.Store.TicketPhase | supabase/functions/paystack-webhook/index.ts:130-222 | the reply and the new store are those of `IssueTicket` |
| WebhookProperties.ProceedFacts | supabase/functions/paystack-webhook/index.ts:31-98 | a plan exists only for a parsed body with a code the gateway reports paid, naming exactly one unpaid order, with its attendee and pass, and the signed QR payload of its claims |
| WebhookProperties.KnownResponses | supabase/functions/paystack-webhook/index.ts:18-226 | every reply is one of 405, 401, 200 "ok", 200 "ignored" and 500 "error" |
| WebhookProperties.DeliverSplit | supabase/functions/paystack-webhook/index.ts:26-115 | an authentic delivery with a plan writes what `Commit` writes; any other delivery writes nothing |
| WebhookProperties.IssueTicketFrame | supabase/functions/paystack-webhook/index.ts:130-222 | the ticket stage writes only tickets and notifications |
| WebhookProperties.IssueTicketTickets | supabase/functions/paystack-webhook/index.ts:130-157 | tickets are unchanged, or the new ticket is added under a fresh id when the lookup did not find exactly one |
| WebhookProperties.IssueTicketInserts | supabase/functions/paystack-webhook/index.ts:130-151 | when the lookup fails or does not find exactly one ticket, and the insert succeeds, the new ticket is stored under the fresh id |
| WebhookProperties.IssueTicketWithoutFault | supabase/functions/paystack-webhook/index.ts:130-222 | with no failing call the ticket stage answers 200, keeps orders and attendees, inserts a ticket only when the order does not have exactly one, and queues one notification |
| WebhookProperties.CommitShape | supabase/functions/paystack-webhook/index.ts:100-157 | reference tables unchanged, orders guarded-updated unless that update fails, tickets as in the ticket stage |
| WebhookProperties.CommitWithoutFault | supabase/functions/paystack-webhook/index.ts:100-222 | with no failing call: 200, the order marked paid, the attendee PAID with the pass, one ticket for the order, and one notification queued |
| WebhookProperties.CommitFailsAfterOrderUpdate | supabase/functions/paystack-webhook/index.ts:112-156 | an attendee-update or ticket-insert failure answers 500 after the order is already marked paid, with no ticket added |
| WebhookProperties.AuthenticNot401 | supabase/functions/paystack-webhook/index.ts:26-28 | a correctly signed delivery is never answered 401 |
| WebhookProperties.MissingSignatureRejected | supabase/functions/paystack-webhook/index.ts:229-230 | a missing or empty header gets 401 and writes nothing |
| WebhookProperties.SignatureDecides401 | supabase/functions/paystack-webhook/index.ts:23-28 | a POST gets 401 exactly when its header differs from the expected hex, and a 401 writes nothing |
| WebhookProperties.UppercaseSignatureRejected | supabase/functions/paystack-webhook/index.ts:240-243 | the comparison is case-sensitive: a header with an uppercase hex letter is rejected |
| WebhookProperties.NoRequestCodeAcknowledged | supabase/functions/paystack-webhook/index.ts:33-38 | no truthy request code: 200 "ok" and no write |
| WebhookProperties.EmptyRequestCodeDoesNotFallBack | supabase/functions/paystack-webhook/index.ts:33-38 | an empty `request_code` is not replaced by `payment_request_code`: 200 "ok" and no write |
| WebhookProperties.UnpaidIgnored | supabase/functions/paystack-webhook/index.ts:40-44 | a payment the gateway reports unpaid: 200 "ignored" and no write |
| WebhookProperties.UnknownOrderAcknowledged | supabase/functions/paystack-webhook/index.ts:46-50 | a paid code that matches no order: 200 "ok" and no write |
| WebhookProperties.PaidOrderAcknowledged | supabase/functions/paystack-webhook/index.ts:52-55 | an order already paid: 200 "ok" and no write |
| WebhookProperties.MissingDayFails | supabase/functions/paystack-webhook/index.ts:60-64 | a pass whose start or end day has no record: 500 before any write |
| WebhookProperties.WritesFollowThePlan | supabase/functions/paystack-webhook/index.ts:30-128 | the store changes only for an authentic delivery with a plan whose order update succeeds |
| WebhookProperties.EarlyFailureWritesNothing | supabase/functions/paystack-webhook/index.ts:30-115 | a failure at or before the order update leaves the store unchanged |
| WebhookProperties.MarkPaidChanges | supabase/functions/paystack-webhook/index.ts:102-110 | the guarded update keeps every row except the one it names, and changes that one only from pending to paid with the time and the gateway data |
| WebhookProperties.MarkPaidKeepsCodes | supabase/functions/paystack-webhook/index.ts:102-110 | marking paid does not change which orders carry a request code |
| WebhookProperties.OnlyPendingOrderBecomesPaid | supabase/functions/paystack-webhook/index.ts:102-115 | across a whole delivery, an order row changes only from pending to paid, and only the one the delivery's code names; no order appears or disappears |
| WebhookProperties.ReferenceTablesUnchanged | supabase/functions/paystack-webhook/index.ts:57-98 | pass products, event days and settings are only read |
| WebhookProperties.AddTicketKeepsOnePerOrder | supabase/functions/paystack-webhook/index.ts:136-151 | adding a ticket for an order without one keeps at most one ticket per order |
| WebhookProperties.DeliverKeepsOneTicketPerOrder | supabase/functions/paystack-webhook/index.ts:130-157 | when the existing-ticket lookup works, a delivery never gives an order a second ticket |
| WebhookProperties.DeliverAllKeepsOneTicketPerOrder | supabase/functions/paystack-webhook/index.ts:130-157 | the same over any sequence of deliveries |
| WebhookProperties.LookupErrorIssuesAnotherTicket | supabase/functions/paystack-webhook/index.ts:130-136 | a failed existing-ticket lookup reads as "no ticket", and the order gets another ticket |
| WebhookProperties.DeliverKeepsTicketsSigned | supabase/functions/paystack-webhook/index.ts:75-151 | every stored ticket agrees with its QR payload, whose checksum is valid for the QR secret; deliveries keep this |
| WebhookProperties.DeliverAllKeepsTicketsSigned | supabase/functions/paystack-webhook/index.ts:75-151 | the same over any sequence of deliveries |
| WebhookProperties.FirstDeliveryIssuesOneTicket | supabase/functions/paystack-webhook/index.ts:52-157 | the first paid delivery marks a pending order paid, promotes the attendee and issues exactly one correctly signed ticket; a redelivery then writes nothing |
| WebhookProperties.CrashAfterOrderUpdateNeverRepaired | supabase/functions/paystack-webhook/index.ts:52-157 | after a crash past the order update, redeliveries are answered 200 and the ticket is never issued |
| WebhookProperties.UnpendingOrderStillGetsTicket | supabase/functions/paystack-webhook/index.ts:102-157 | an expired or cancelled order keeps its status, yet the attendee is promoted and a ticket is issued |
| WebhookProperties.NotificationNamesFreshTicketId | supabase/functions/paystack-webhook/index.ts:159-187 | when the order already has its ticket, the queued notification names a fresh id that belongs to no ticket |
| CreateOrder.CheckRequired | supabase/functions/create-order/index.ts:224-226 | a field passes exactly when it is a non-blank string; a failing field is never reported as valid |
| CreateOrder.FirstRequiredFailure | supabase/functions/create-order/index.ts:223-227 | no failure exactly when every listed field is present and non-blank |
| CreateOrder.CurrencyOf | supabase/functions/create-order/index.ts:238 | an absent or null currency is judged as "NGN" |
| CreateOrder.ValidatePayload | supabase/functions/create-order/index.ts:215-253 | the loop over the required fields returns the verdict of `Validate` |
| CreateOrder.MaybeSingle | supabase/functions/create-order/index.ts:71-84 | no row for none, the row for exactly one, an error for several |
| CreateOrder.ActivePasses | supabase/functions/create-order/index.ts:71-76 | the passes with the SKU that are active, and only those |
| CreateOrder.PendingHolders | supabase/functions/create-order/index.ts:255-275 | the attendees with the e-mail that have a pending order, and only those |
| CreateOrder.LatestPending | supabase/functions/create-order/index.ts:274-283 | none exactly when the attendee has no pending order; otherwise one of their pending orders with the latest `created_at` |
| CreateOrder.FindPendingOrderByEmail | supabase/functions/create-order/index.ts:255-292 | a result exactly when one attendee with the e-mail holds pending orders; the result names that attendee and their latest pending order by `created_at`, with its request code and invoice link |
| CreateOrder.RecordInvoice | supabase/functions/create-order/index.ts:177-185 | only the row with the order id changes, gaining the request code, hosted link, PDF link and gateway data |
| CreateOrder.Service.HandleRequest | supabase/functions/create-order/index.ts:43-213 | the reply and the new tables and call log are those of `Respond` on the old ones |
| CreateOrder.Service.ProceedWith | supabase/functions/create-order/index.ts:71-103 | the same for the pass lookup and the pending-order branch (`Proceed`) |
| CreateOrder.Service.CreateRegistration | supabase/functions/create-order/index.ts:105-202 | the same for the registration and invoice (`Register`) |
| CreateOrderProperties.EmailPatternIff | supabase/functions/create-order/index.ts:229-232 | the e-mail pattern accepts exactly: no white space, exactly one '@' with something before it, and a '.' in the domain with a character on each side |
| CreateOrderProperties.PaddedEmailRejected | supabase/functions/create-order/index.ts:224-232 | an address with leading white space passes the required check but fails the pattern |
| CreateOrderProperties.ValidIff | supabase/functions/create-order/index.ts:215-253 | the payload is valid exactly when every rule holds: object, four non-blank strings, e-mail pattern, allowed role, NGN/USD after upper-casing, and terms accepted with a non-blank version unless `resend_invoice` is set |
| CreateOrderProperties.FirstFailureAt | supabase/functions/create-order/index.ts:223-227 | when the fields before position i are present and field i is not, the loop reports field i |
| CreateOrderProperties.FirstMissingReported | supabase/functions/create-order/index.ts:217-227 | the first missing required field is reported as "Missing <field>."; a truthy non-string throws |
| CreateOrderProperties.SameVerdict | supabase/functions/create-order/index.ts:238-241 | payloads that differ only in a currency that upper-cases alike get the same verdict |
| CreateOrderProperties.CurrencyCaseIgnored | supabase/functions/create-order/index.ts:238-241 | the currency's letter case never changes the verdict |
| CreateOrderProperties.NullishCurrencyIsNgn | supabase/functions/create-order/index.ts:238 | a missing or null currency is judged like "NGN" |
| CreateOrderProperties.LowercaseUsdAccepted | supabase/functions/create-order/index.ts:238-241 | "usd" is accepted and "eur" is not |
| CreateOrderProperties.RespondRejects | supabase/functions/create-order/index.ts:44-66 | OPTIONS, non-POST, an unreadable body and an invalid payload answer without touching the tables or the call log |
| CreateOrderProperties.RespondProceeds | supabase/functions/create-order/index.ts:61-71 | a valid POST goes to the pass lookup with the payload's input |
| CreateOrderProperties.ExistingPendingOrderReused | supabase/functions/create-order/index.ts:86-103 | an existing pending order is answered without registering; without `resend_invoice` nothing changes, with it only the resend call is logged |
| CreateOrderProperties.ReachesExisting | supabase/functions/create-order/index.ts:86-103 | with a pending order found, the reply is that order or the resend |
| CreateOrderProperties.ReachesRegister | supabase/functions/create-order/index.ts:86-117 | with no pending order found, the request registers one |
| CreateOrderProperties.RejectionsWriteNothing | supabase/functions/create-order/index.ts:43-213 | every reply other than 200 and 500 leaves the tables and call log unchanged |
| CreateOrderProperties.WritesNeedRegistration | supabase/functions/create-order/index.ts:71-190 | passes are never written and the call log only grows; attendees or orders change only when no pending order exists and the procedure returns a row |
| CreateOrderProperties.RegistrationSucceeds | supabase/functions/create-order/index.ts:105-202 | when registration and invoice succeed: the attendee and a pending order for the pass's amount and currency are added, the invoice is recorded on it, other orders are kept, and both calls are logged |
| CreateOrderProperties.SubmissionRegistersOrder | supabase/functions/create-order/index.ts:43-202 | the same through the whole handler, with the "Invoice created successfully." reply |
| CreateOrderProperties.ResendFlagRegistersWithoutTerms | supabase/functions/create-order/index.ts:243-250 | with `resend_invoice` set and no pending order, a payload without accepted terms still registers, recording `accepted_terms` false |
| CreateOrderProperties.PendingBefore | supabase/functions/create-order/index.ts:255-275 | a row appended for another attendee changes no one's pending status |
| CreateOrderProperties.OnlyPendingIsLast | supabase/functions/create-order/index.ts:274-283 | an attendee whose only order is the new pending row gets that row as the latest |
| CreateOrderProperties.FirstOrderFound | supabase/functions/create-order/index.ts:255-292 | after a fresh registration, the lookup by e-mail finds the new order with its invoice |
| CreateOrderProperties.SecondSubmissionFindsFirstOrder | supabase/functions/create-order/index.ts:86-94 | repeating the request answers "Existing pending order found." with the first order and changes nothing |
| CreateOrderProperties.RegisterIgnoresCurrency | supabase/functions/create-order/index.ts:105-173 | the payload's currency changes neither the reply nor the rows; it appears only as the logged preference |
| CreateOrderProperties.CurrencyChoiceOnlyRecorded | supabase/functions/create-order/index.ts:105-173 | two valid payloads that differ only in currency get the same reply and rows; the invoice charges the pass's own amount and currency |
| ServiceWorker.Opened | apps/web_flutter/web/pwa_service_worker.js:45 | opening creates the shell cache if missing and changes nothing else |
| ServiceWorker.Pruned | apps/web_flutter/web/pwa_service_worker.js:18-27 | only the shell cache remains, unchanged |
| ServiceWorker.Worker.OpenShell | apps/web_flutter/web/pwa_service_worker.js:45 | the caches become `Opened` of the old ones |
| ServiceWorker.Worker.Install | apps/web_flutter/web/pwa_service_worker.js:11-16 | the loop fetching the shell (failing on a non-2xx or a 206 answer) and the loop storing it give `Installed` of the old caches |
| ServiceWorker.Worker.Activate | apps/web_flutter/web/pwa_service_worker.js:18-27 | the loop over the cache names leaves `Pruned` of the old caches |
| ServiceWorker.Worker.HandleFetch | apps/web_flutter/web/pwa_service_worker.js:29-42 | the handling and the new caches are those of `Fetch` |
| ServiceWorker.Worker.CacheFirstFetch | apps/web_flutter/web/pwa_service_worker.js:44-55 | the same for `CacheFirst` |
| ServiceWorker.Worker.NetworkFirstFetch | apps/web_flutter/web/pwa_service_worker.js:57-72 | the same for `NetworkFirst` |
| ServiceWorkerProperties.PutAllLookup | apps/web_flutter/web/pwa_service_worker.js:13 | storing the fetched responses puts each URL's response under it and keeps the other entries |
| ServiceWorkerProperties.InstallStoresShell | apps/web_flutter/web/pwa_service_worker.js:11-16 | install succeeds exactly when every shell URL answers with a 2xx status other than 206; then each is stored with its response, nothing else changes and no other cache is touched; otherwise only the shell cache has been opened |
| ServiceWorkerProperties.ActivateKeepsOnlyShell | apps/web_flutter/web/pwa_service_worker.js:18-27 | activation keeps the shell cache untouched, deletes all others and adds nothing; activating twice is activating once |
| ServiceWorkerProperties.NonGetNotIntercepted | apps/web_flutter/web/pwa_service_worker.js:32-34 | a non-GET is left to the browser and touches no cache |
| ServiceWorkerProperties.CachedServedWithoutNetwork | apps/web_flutter/web/pwa_service_worker.js:44-49 | a cached non-ticket GET is answered from the cache whatever the network does, and nothing changes |
| ServiceWorkerProperties.TicketNetworkFirst | apps/web_flutter/web/pwa_service_worker.js:36-38 | a ticket GET returns the network's response even when cached; on a network error it returns the cached copy, or else rethrows |
| ServiceWorkerProperties.OnlyOkResponsesCached | apps/web_flutter/web/pwa_service_worker.js:51-53 | after any GET, no cache or entry is lost; the only entry that can change or appear is the requested URL, holding a status-200 response the network delivered for it |
| ServiceWorkerProperties.NonOkNotCached | apps/web_flutter/web/pwa_service_worker.js:61-71 | a non-200 response or a thrown fetch leaves the caches as opening left them |
| ServiceWorkerProperties.OkResponseCached | apps/web_flutter/web/pwa_service_worker.js:50-64 | a status-200 response for a ticket or uncached URL is returned and stored under its URL |
| ServiceWorkerProperties.NoTicketWithoutSlashM | apps/web_flutter/web/pwa_service_worker.js:36 | a URL with no "/m" never contains "/me/ticket" |
| ServiceWorkerProperties.ShellUrlsNotTickets | apps/web_flutter/web/pwa_service_worker.js:2-9 | no shell URL is routed network-first |
| ServiceWorkerProperties.ShellServedOffline | apps/web_flutter/web/pwa_service_worker.js:11-49 | after a successful install and an activation, every shell URL is served from the cache with the installed response, whatever the network does |

## Behaviour worth knowing

- The signature comparison is exact: `verifySignature` compares the header
  with lowercase hex using `===`, so an uppercase hex header is rejected
  (`UppercaseSignatureRejected`).
- An unknown request code is answered 200 "ok"
  (`UnknownOrderAcknowledged`). The handler has no 202, 400 or 404 replies.
- The QR checksum signs the claims joined with ':' without escaping, so a
  ':' inside a field can make two claim records collide
  (`ColonInFieldCollides`).
- The promise of at most one ticket per paid order can fail in three ways:
  - a failed existing-ticket lookup issues another ticket
    (`LookupErrorIssuesAnotherTicket`);
  - a crash after the order update is never repaired, because redeliveries
    see a paid order (`CrashAfterOrderUpdateNeverRepaired`);
  - an expired or cancelled order still gets a ticket
    (`UnpendingOrderStillGetsTicket`).
- `supabase.ts` exports `createAdminClient`, but both handlers import
  `getSupabaseClient`, which it does not define. The model assumes a working
  client.

## Left out

- JSON parsing and numbers: a body is modelled only as readable or not, and
  JSON numbers as integers.
- `req.json()` and `validatePayload` throwing: these answer with the engine's
  error message, which is not modelled (`EngineError`).
- Concurrency: each delivery and each request runs alone against the store.
  Races between redeliveries are not modelled. The order update's
  compare-and-swap is modelled only as a single-request guard.
- The body of `create_pending_registration`: the model assumes it appends one
  attendee row and one pending order row with the ids it returns. The
  `RegistrationMetadata` it receives is logged as a call.
- Postgres ordering among orders with equal `created_at`: the model uses
  table row order.
- The PostgREST error `PGRST116` for several matching attendees: modelled as
  "no pending order", as the code treats it.
- The HMAC-SHA-512 and HMAC-SHA-256 internals: the MACs are inputs, functions
  with the right digest length.
- dayjs time arithmetic and formatting (`expiresAt`, `paid_at`, the ICS
  timestamps): these are inputs.
- `crypto.randomUUID`, the ticket serial procedure and the QR PNG image:
  these are inputs.
- The HTML and text bodies of the ticket e-mail, and the mail transport: only
  the notification row's recipient, subject, status, kind and ids are
  modelled, plus whether the send fails.
- `JSON.stringify` of the QR payload is not modelled.
- Upper-casing beyond ASCII: JavaScript's `toUpperCase` maps a few
  non-ASCII letters to ASCII ones (for example "ſ" to "S"). The model
  upper-cases ASCII letters only.
- Logging, CORS headers and response headers.
- Failures of the store: each is modelled as an outcome flag or as the single
  `Fault` of a delivery, not as an exception with a message. The webhook's
  500 reply carries no message, and create-order's 500 replies carry the
  thrown message.
- Strings are sequences of Unicode scalar values. Lone surrogates and
  UTF-16 lengths are not modelled, so `Bytes.Utf8RoundTrip` and
  `Bytes.Utf8Injective` hold on well-formed strings only. The webhook's
  `req.text()` and Postgres `text` columns cannot produce lone surrogates.
- The Cache API's URL handling: relative URLs are not resolved against the
  worker's scope, and cache keys are the URL strings as given.
  `ignoreSearch`, `Vary` and opaque responses are not modelled.
- The un-awaited `cache.put`: it is modelled as completing before the
  response is returned.
- The install's `skipWaiting` and the activation's `clients.claim` (service
  worker lifecycle): not modelled.
- ServiceWorker.Worker.Install: `cache.addAll` fetches in parallel, while the
  model fetches in list order and stops at the first bad response. The
  stored result and the verdict are the same.
