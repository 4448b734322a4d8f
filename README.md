# RFQ marketplace: a Dafny model of the request → offer → negotiation → order lifecycle

The system is a B2B request-for-quotation marketplace. Clients post RFQs.
An automatic gatekeeper approves, rejects or flags what they post. Suppliers
answer with offers. An administrator negotiates each offer with its supplier
(at most three rounds), and the client turns the offer it accepts into an
order. The order then goes through mock payment, delivery, finalisation and
archiving. Administrators can also act through a Telegram bot with inline
buttons.

This project models, in Dafny:

- **The database.** `class Store` (file `store.dfy`) holds one map per table
  (RFQs, offers, negotiations, orders, users), the sequence of negotiation
  messages, the gatekeeper's log and a counter for fresh ids. `Snap()` packs
  these into the value `Db`.
- **The invariant.** `Store.Inv` states the invariant every handler keeps:
  - ids are below the counter;
  - an offer has at most one active negotiation and at most one order;
  - a negotiation has at most three rounds, and every message lies within its
    negotiation's rounds;
  - every order is locked;
  - a supplier has at most one offer per RFQ;
  - usernames and emails are unique.
- **The HTTP handlers.** One module per route file: `Rfqs`, `Offers`,
  `Negotiations`, `Orders`, `Users`, `Statistics` and `GatekeeperRoutes`
  (the gatekeeper's admin routes). Each handler is two members:
  - a pure `…Check` function, which gives the outcome of the handler's checks
    (`Ok`, `NotFound`, `Forbidden`, `BadRequest(why)`, `Internal`);
  - a method on the store that returns that outcome, changes nothing unless
    it is `Ok`, and on `Ok` states the whole new database.

  Read-only routes are functions that return the set of rows the caller sees.
- **The Telegram bot's callbacks** (`Bot`): parsing of `action:id` data, the
  dispatch, and the handlers that write.
- **The gatekeeper** (`Filters`, `Score`, `Service`):
  - the decision rules, the supplier suggestion and the trust score;
  - the badges, the daily counts and the risk colours;
  - the service, which holds its running flag, processes a poll's batch in
    order, records each decision and log entry, chooses the notification and
    purges old rejected RFQs.
- **Supplier search** (`SupplierMap`): the front-end search filters, the top
  list, the delivery-time estimate, the summary statistics and the
  recommendation.
- **Shared helpers.** `Text` holds the JavaScript string operations the code
  relies on (`toLowerCase`, `trim`, `includes`, `split`, decimal rendering).
  `Seqs` holds filtering, stable descending sort, top-N and counting.

The caller `{userId, role}` is a trusted input. Clock readings (`now`)
are parameters, and so are the rows the database would choose.

Where the intended lifecycle and the code differ, the model follows the code:

- `Offers.SubmitCheck` refuses a second offer from the same supplier on the
  same RFQ whatever the status of the first, even a withdrawn one.
- `Offers.DeleteCheck` allows deleting an offer in any status except
  `in_negotiation`, `final_confirmed` and `accepted`, provided it is
  unlocked. The intended rule was "submitted only".
- `Negotiations.AdminRespond` has no whose-turn check. It records the
  message with round number `rounds + 1`.
- `Negotiations.Cancel` sets no `completedAt`.
- `Orders.Delete` unlocks the offer but leaves its status `accepted`. It is
  the only write that unlocks an offer: every other method that changes the
  store ensures `LocksKept` (no locked offer becomes unlocked).
- `Orders.UpdatePayment` and `Orders.UpdateDelivery` do not look at the
  order's current state.
- The bot's accept (`Bot.HandleAcceptOffer`) checks no offer or RFQ status.
  The bot's start of a negotiation does not check the offer's lock.

## Model

| member | source | states |
|---|---|---|
| Store.OpenKeepsInv | backend/src/routes/negotiations.ts:57-100 | Opening a negotiation keeps the database invariant. This needs the offer to have no active negotiation. The new negotiation starts at round 1, its opening message is in round 1, and the offer and the RFQ only change status. |
| Store.TouchKeepsInv | backend/src/routes/negotiations.ts:238-291 | A reply, an acceptance or a rejection keeps the invariant when four things hold: rounds do not decrease and stay within the ceiling of 3, a negotiation that is no longer active does not become active again, the new messages lie within the rounds, and offers keep their RFQ and supplier. |
| Negotiations.MessagesOf | backend/src/routes/negotiations.ts:110-154 | A message is in a negotiation's thread iff it is in the log and belongs to that negotiation. |
| Negotiations.MessagesOfIsFilter | backend/src/routes/negotiations.ts:110-154 | The thread is the log filtered by negotiation: all of its messages and no other. |
| Negotiations.ThreadKeepsOrder | backend/src/routes/negotiations.ts:110-154 | The thread is a subsequence of the log, so its messages keep the log's order. |
| Negotiations.MessagesOfAppend | backend/src/routes/negotiations.ts:248-253 | Appending a message extends exactly the thread of the message's negotiation. |
| Negotiations.CurrentTermsLatest | backend/src/routes/negotiations.ts:272-273 | The current terms depend only on the latest message. Its proposed price is used when truthy, and so is its delivery time when non-empty; otherwise the offer's own value stays. |
| Negotiations.CurrentTermsIdempotent | backend/src/routes/negotiations.ts:272-273 | Taking the current terms again, starting from the current terms, changes nothing. |
| Negotiations.AcceptedTermsAreCurrent | backend/src/routes/negotiations.ts:256-277 | After the accepting message is appended, the thread's current terms are that message's proposal, falling back to the offer's terms. |
| Negotiations.StartCheck | backend/src/routes/negotiations.ts:27-63 | Starting succeeds iff all of these hold: the caller is an admin, the opening message is valid, the offer exists, is unlocked and is neither rejected nor withdrawn, it has no active negotiation, and its RFQ exists. A locked offer gives `Locked`, and an offer with an active negotiation gives a bad request. |
| Negotiations.Start | backend/src/routes/negotiations.ts:25-107 | On success the new state is exactly this: an active negotiation with rounds = 1, the admin's message in round 1, the offer `in_negotiation` and the RFQ `negotiation`. On failure nothing changes, and the invariant (one active negotiation per offer) is kept. |
| Negotiations.ViewCheck | backend/src/routes/negotiations.ts:110-154 | A negotiation is visible iff it exists and the caller is an admin, its supplier, or the client who owns its RFQ. A missing one gives not-found. |
| Negotiations.FindByOffer | backend/src/routes/negotiations.ts:157-201 | Not-found iff the offer has no negotiation. Otherwise the result is a negotiation of that offer, with the view check applied to it. |
| Negotiations.RespondCheck | backend/src/routes/negotiations.ts:204-246 | A supplier reply succeeds iff all of these hold: the caller is a supplier and owns the negotiation, the negotiation is active, and the reply is valid. A reply that is not an acceptance also needs rounds < 3. A round-limit refusal is never an acceptance. |
| Negotiations.Respond | backend/src/routes/negotiations.ts:204-291 | The supplier's message is recorded with round number = rounds. An acceptance completes the negotiation with `completedAt`, and the offer becomes `final_confirmed`, locked, with the thread's current terms. Any other reply raises rounds by exactly 1. Nothing else changes, and nothing at all changes on failure. |
| Negotiations.AdminRespondCheck | backend/src/routes/negotiations.ts:294-330 | An admin reply succeeds iff the caller is an admin, the reply is valid, and the negotiation exists, is active and has rounds < 3. There is no check on whose turn it is. |
| Negotiations.AdminRespond | backend/src/routes/negotiations.ts:294-351 | On success the message is recorded with round number rounds + 1 and rounds goes up by 1. Nothing else changes. |
| Negotiations.CancelCheck | backend/src/routes/negotiations.ts:354-375 | Cancelling succeeds iff the caller is an admin and the negotiation exists, is active and still has its offer. |
| Negotiations.Cancel | backend/src/routes/negotiations.ts:354-392 | The negotiation becomes `cancelled` with no `completedAt`, and the offer goes back to `under_review`. Nothing else changes. |
| Negotiations.RejectCheck | backend/src/routes/negotiations.ts:395-420 | A supplier rejection succeeds iff the caller is the negotiation's supplier and the negotiation is active; there is no round check. |
| Negotiations.Reject | backend/src/routes/negotiations.ts:395-454 | The negotiation becomes `cancelled` with `completedAt`, and the offer becomes `rejected`. A message is appended only when a non-empty one was given. |
| Offers.SubmitCheck | backend/src/routes/offers.ts:25-55 | Submitting succeeds iff all of these hold: the caller is a supplier, the input is valid (price > 0, delivery time ≥ 3 characters, description and terms ≥ 10), the RFQ exists with status `published` or `offers_received`, and the supplier has no offer on it in any status. |
| Offers.Submit | backend/src/routes/offers.ts:25-151 | The new offer carries exactly the given values, with status `submitted` and unlocked. A `published` RFQ becomes `offers_received`, and an RFQ already in `offers_received` stays as it is. Nothing changes on failure. |
| Offers.ListOffers | backend/src/routes/offers.ts:160-206 | An admin sees every offer, a supplier exactly its own offers, and a client exactly the offers on its RFQs. |
| Offers.OffersForRfq | backend/src/routes/offers.ts:212-277 | `Ok` iff the RFQ exists and, for a client, is the client's own. A supplier sees exactly its own offers on the RFQ; the others see all of them. |
| Offers.DeleteCheck | backend/src/routes/offers.ts:283-325 | Deleting succeeds iff all of these hold: the offer exists, the caller is not a client (a supplier must own the offer), the offer is unlocked, and its status is not `in_negotiation`, `final_confirmed` or `accepted`. |
| Offers.Delete | backend/src/routes/offers.ts:283-332 | Only that offer row is removed. |
| Offers.ClientRejectCheck | backend/src/routes/offers.ts:338-375 | A client rejection succeeds iff the caller is the client who owns the RFQ, the offer is `final_confirmed` and the RFQ is `sent_to_client`. |
| Offers.ClientReject | backend/src/routes/offers.ts:338-392 | The offer becomes `rejected` and the RFQ goes back to `negotiation`. Nothing else changes. |
| Orders.CreateCheck | backend/src/routes/orders.ts:25-71 | Creating an order succeeds iff all of these hold: the caller is a client and owns the RFQ, the offer is `final_confirmed`, the RFQ is `sent_to_client`, and the offer has no order yet. |
| Orders.Create | backend/src/routes/orders.ts:23-112 | The order takes the offer's price and terms, with status `created`, locked, and payment and delivery `pending`. The RFQ becomes `closed` and the offer `accepted`. The invariant (one order per offer, every order locked) is kept. |
| Orders.ListOrders | backend/src/routes/orders.ts:115-145 | An admin sees every order, a client exactly its own orders, and a supplier exactly the orders it supplies. |
| Orders.ViewCheck | backend/src/routes/orders.ts:148-180 | An order is visible iff it exists and the caller is an admin or one of its two parties. |
| Orders.ParsePaymentName | backend/src/routes/orders.ts:207-220 | Only the names `initiated` and `confirmed` are accepted, and each parses back to its own status. |
| Orders.PaymentCheck | backend/src/routes/orders.ts:183-206 | A payment update succeeds iff the caller is an admin, the status name is valid and the order exists. The current state is not checked. |
| Orders.UpdatePayment | backend/src/routes/orders.ts:183-233 | `initiated` sets `payment_initiated`. `confirmed` sets `payment_confirmed` and locks the order. Nothing else changes. |
| Orders.ParseDeliveryName | backend/src/routes/orders.ts:256-286 | Only the names `in_progress`, `delivered` and `received` are accepted, and each parses back to its own status. |
| Orders.DeliveryCheck | backend/src/routes/orders.ts:236-275 | A delivery update succeeds iff the status is valid and the order exists. `received` also needs an admin or the order's client, and the other two need an admin or the order's supplier. Forbidden is never the answer given to an admin. |
| Orders.UpdateDelivery | backend/src/routes/orders.ts:236-299 | The delivery status is written, and the order status follows it (`delivery_in_progress`, `delivered`, `received`). The prior state is not checked. |
| Orders.StepCheck | backend/src/routes/orders.ts:302-328 | Finalising or archiving succeeds iff the caller is an admin and the order is in the required prior status. |
| Orders.Finalize | backend/src/routes/orders.ts:302-341 | An order in `received` becomes `finalized`, locked, with `finalizedAt`. |
| Orders.Archive | backend/src/routes/orders.ts:344-383 | An order in `finalized` becomes `archived`, locked, with `archivedAt`. |
| Orders.DeleteCheck | backend/src/routes/orders.ts:390-420 | Deleting succeeds iff the caller is an admin and the order is `created` or `payment_initiated`. Any other status gives an invalid-state error. |
| Orders.Delete | backend/src/routes/orders.ts:390-444 | The order is removed, a `closed` RFQ goes back to `sent_to_client` (other statuses are kept), and the offer is unlocked with its status kept. |
| Rfqs.CreateCheck | backend/src/routes/rfqs.ts:12-37 | Creating succeeds iff the caller is a client and the input is valid (title ≥ 3, description and requirements ≥ 10, a deadline, a positive budget if one is given). Otherwise the answer is forbidden or invalid input. |
| Rfqs.Create | backend/src/routes/rfqs.ts:24-61 | The new RFQ is a `draft` owned by the caller, with no gatekeeper decision. |
| Rfqs.ListRfqs | backend/src/routes/rfqs.ts:70-116 | A client sees exactly its own RFQs. A supplier sees exactly the `published`, `offers_received` and `negotiation` ones, so never a draft or a closed RFQ. An admin sees all except the auto-rejected ones. |
| Rfqs.ViewCheck | backend/src/routes/rfqs.ts:122-173 | An RFQ is visible iff it exists, belongs to the caller if the caller is a client, and is open if the caller is a supplier. A supplier asking for a draft is forbidden. |
| Rfqs.PublishCheck | backend/src/routes/rfqs.ts:188-206 | Publishing succeeds iff the caller is an admin and the RFQ is a draft. |
| Rfqs.Publish | backend/src/routes/rfqs.ts:179-225 | The RFQ becomes `published` with `publishedAt`. Nothing else changes. |
| Rfqs.SendToClientCheck | backend/src/routes/rfqs.ts:254-270 | Sending succeeds iff the caller is an admin and the named offer exists, belongs to this RFQ and is `final_confirmed`. The RFQ's own status is not checked. |
| Rfqs.SendToClient | backend/src/routes/rfqs.ts:231-289 | The RFQ becomes `sent_to_client`. Nothing else changes. |
| Rfqs.DeleteCheck | backend/src/routes/rfqs.ts:312-331 | Deleting succeeds iff the RFQ exists, the caller is not a supplier, a client caller owns it, and it is a draft. |
| Rfqs.Delete | backend/src/routes/rfqs.ts:295-338 | Only that RFQ is removed. |
| Users.ParseRoleName | backend/src/routes/users.ts:13-20 | Only `client` and `supplier` are creatable roles, and each parses back to itself; `admin` is refused. |
| Users.CreateCheck | backend/src/routes/users.ts:26-62 | Creating succeeds iff the caller is an admin, the input is valid, and both the username and the email are free. A duplicate username is reported before a duplicate email. |
| Users.Create | backend/src/routes/users.ts:26-84 | The new user has the given fields, a client or supplier role, and `createdBy` = the calling admin. The invariant (unique usernames and emails) is kept. |
| Users.CreateKeepsAdmins | backend/src/routes/users.ts:55-62 | Creating a user leaves the set of admins unchanged. |
| Users.List | backend/src/routes/users.ts:90-111 | An admin sees every user, and nobody else sees any. |
| Users.ViewCheck | backend/src/routes/users.ts:117-143 | Viewing succeeds iff the caller is an admin and the user exists. |
| Users.DeleteCheck | backend/src/routes/users.ts:154-172 | Deleting succeeds iff the caller is an admin and the user exists and is not an admin. Deleting an admin is forbidden. |
| Users.Delete | backend/src/routes/users.ts:149-179 | Only that user is removed, and the set of admins is unchanged. |
| Bot.ActionName | backend/src/features/NotificationGatekeeperPOC/telegram/bot.ts:141-168 | Every action name is non-empty and contains no `:`. |
| Bot.ParseActionName | backend/src/features/NotificationGatekeeperPOC/telegram/bot.ts:141-168 | Each of the eight action names selects its own handler. |
| Bot.ParseCallback | backend/src/features/NotificationGatekeeperPOC/telegram/bot.ts:141 | The id part, when present, contains no `:`. |
| Bot.IdOf | backend/src/features/NotificationGatekeeperPOC/telegram/bot.ts:141 | An id text is accepted only when it is the canonical decimal rendering of the id. |
| Bot.IdOfText | backend/src/features/NotificationGatekeeperPOC/telegram/bot.ts:141 | Reading back a rendered id gives the id. |
| Bot.CallbackRoundTrip | backend/src/features/NotificationGatekeeperPOC/telegram/bot.ts:141-168 | Decoding the callback data `action:id` gives back that action and that id, so the dispatch acts on the row the button was made for. |
| Bot.Dispatch | backend/src/features/NotificationGatekeeperPOC/telegram/bot.ts:131-181 | A handler runs iff the action is one of the eight. Unknown actions, the read-only actions, a missing id, a non-numeric id and every failed check change nothing, and the invariant is kept. Each writing action on a named row gives exactly its handler's outcome and new state (publish, reject, accept, reject offer, start with some admin); viewing an offer gives that offer's lookup outcome. |
| Bot.RfqCheck | backend/src/features/NotificationGatekeeperPOC/telegram/bot.ts:184-203 | The bot's RFQ handlers succeed iff the RFQ exists. |
| Bot.HandlePublishRfq | backend/src/features/NotificationGatekeeperPOC/telegram/bot.ts:184-229 | The RFQ becomes `published` with `publishedAt` and `auto_approved`, whatever its status was. |
| Bot.HandleRejectRfq | backend/src/features/NotificationGatekeeperPOC/telegram/bot.ts:231-273 | Only the gatekeeper status changes, to `auto_rejected`. |
| Bot.ActiveOf | backend/src/features/NotificationGatekeeperPOC/telegram/bot.ts:349-356 | The result is the offer's active negotiation if it has one, and none iff it has none. |
| Bot.AcceptTerms | backend/src/features/NotificationGatekeeperPOC/telegram/bot.ts:349-362 | With no active negotiation, the final terms are the offer's own. |
| Bot.AcceptTermsFallBack | backend/src/features/NotificationGatekeeperPOC/telegram/bot.ts:360-362 | When the newest message proposes no price, the offer's price is kept. |
| Bot.AcceptCheck | backend/src/features/NotificationGatekeeperPOC/telegram/bot.ts:333-346 | Accepting succeeds iff the offer and its RFQ exist and the offer has no order. An existing order gives a duplicate error. |
| Bot.AcceptIgnoresStatus | backend/src/features/NotificationGatekeeperPOC/telegram/bot.ts:333-346 | The bot's accept checks no offer or RFQ status: an offer in any status that has no order is accepted. |
| Bot.CompleteActive | backend/src/features/NotificationGatekeeperPOC/telegram/bot.ts:398-406 | Afterwards the offer has no active negotiation, and the negotiations of other offers are untouched. |
| Bot.HandleAcceptOffer | backend/src/features/NotificationGatekeeperPOC/telegram/bot.ts:321-432 | The offer becomes `accepted`, locked, with the derived terms. A `created`, locked order with pending payment and delivery is added, the RFQ is closed, and the active negotiation is completed. No lock is released. |
| Bot.AcceptKeepsInv | backend/src/features/NotificationGatekeeperPOC/telegram/bot.ts:365-406 | Each accept keeps the database invariant: one order per offer, no active negotiation left on the offer. |
| Bot.OfferCheck | backend/src/features/NotificationGatekeeperPOC/telegram/bot.ts:434-454 | Rejecting through the bot succeeds iff the offer exists. |
| Bot.HandleRejectOffer | backend/src/features/NotificationGatekeeperPOC/telegram/bot.ts:434-478 | The offer becomes `rejected` unconditionally. Nothing else changes. |
| Bot.StartCheck | backend/src/features/NotificationGatekeeperPOC/telegram/bot.ts:480-520 | Starting from the bot succeeds iff there is an admin, the offer and its RFQ exist, and the offer has no active negotiation. An active one gives a duplicate error. |
| Bot.HandleStartOfferNegotiation | backend/src/features/NotificationGatekeeperPOC/telegram/bot.ts:480-571 | A negotiation with rounds = 1 is created for an admin, with an opening message in round 1. The offer becomes `in_negotiation` and the RFQ `negotiation`. |
| Bot.StartIgnoresLock | backend/src/features/NotificationGatekeeperPOC/telegram/bot.ts:505-547 | A locked offer that the HTTP route refuses with `Locked` is accepted by the bot. |
| GatekeeperRoutes.WithGate | backend/src/features/NotificationGatekeeperPOC/routes.ts:24-35 | A bucket holds exactly the RFQs with that gatekeeper status. |
| GatekeeperRoutes.UndecidedRfqs | backend/src/features/NotificationGatekeeperPOC/routes.ts:24-35 | The pending bucket holds exactly the RFQs with a null or `pending` status. |
| GatekeeperRoutes.CreatedSince | backend/src/features/NotificationGatekeeperPOC/routes.ts:24-35 | The last-day window is exactly the RFQs created at or after the cutoff, unchanged. |
| GatekeeperRoutes.GetStats | backend/src/features/NotificationGatekeeperPOC/routes.ts:21-85 | Statistics are produced iff the caller is an admin. |
| GatekeeperRoutes.BucketsWithinTotal | backend/src/features/NotificationGatekeeperPOC/routes.ts:24-35 | The approved, rejected, flagged and pending buckets are disjoint, so together they count at most the total. |
| GatekeeperRoutes.LastDayWithinOverall | backend/src/features/NotificationGatekeeperPOC/routes.ts:21-85 | Each last-day count is at most the matching overall count. |
| GatekeeperRoutes.ListDecided | backend/src/features/NotificationGatekeeperPOC/routes.ts:91-115 | For an admin the list holds exactly the RFQs with that decision. The same function serves the high-risk list at lines 197-220. |
| GatekeeperRoutes.RecentLogs | backend/src/features/NotificationGatekeeperPOC/routes.ts:226-251 | Only an admin gets the log. It holds min(100, n) entries of the log, newest first, and no entry left out is newer than one kept. |
| GatekeeperRoutes.ReEvaluateCheck | backend/src/features/NotificationGatekeeperPOC/routes.ts:121-142 | Re-evaluating succeeds iff the caller is an admin and the RFQ exists. |
| GatekeeperRoutes.ReEvaluate | backend/src/features/NotificationGatekeeperPOC/routes.ts:121-153 | The RFQ becomes `published` with `publishedAt` and `auto_approved`, with no check of its prior status. |
| GatekeeperRoutes.DeleteRejectedCheck | backend/src/features/NotificationGatekeeperPOC/routes.ts:159-180 | Deleting succeeds iff the RFQ is auto-rejected. Otherwise it is an invalid-state error. |
| GatekeeperRoutes.DeleteRejected | backend/src/features/NotificationGatekeeperPOC/routes.ts:159-191 | Only that RFQ is removed. |
| GatekeeperRoutes.Process | backend/src/features/NotificationGatekeeperPOC/routes.ts:257-268 | The manual run processes the RFQ exactly as the service does when it exists, and otherwise changes nothing. |
| GatekeeperRoutes.ParseTelegramAction | backend/src/features/NotificationGatekeeperPOC/routes.ts:276-335 | Only `publish`, `reject` and `negotiate` are accepted. |
| GatekeeperRoutes.ActionCheck | backend/src/features/NotificationGatekeeperPOC/routes.ts:274-300 | The action succeeds iff the caller is an admin, the action is known, and the RFQ is named and exists. |
| GatekeeperRoutes.AfterAction | backend/src/features/NotificationGatekeeperPOC/routes.ts:276-335 | `publish` sets the status and keeps the gatekeeper status. `reject` sets only the gatekeeper status. `negotiate` changes nothing. |
| GatekeeperRoutes.Action | backend/src/features/NotificationGatekeeperPOC/routes.ts:274-345 | Only the named RFQ changes, as the action says. |
| Filters.Evaluate | backend/src/features/NotificationGatekeeperPOC/gatekeeper/filters.ts:48-128 | The rules below apply, with a missing figure counting as 0. The score is always between 75 and 95. <br>• A value above 2,000,000 with reputation below 4.0 is flagged, and only that. <br>• Otherwise the RFQ is approved iff the value is at least 100,000 and either the reputation is at least 4.0, or the value is at most 2,000,000 with financial score ≥ 70 and at least 3 completed RFQs. <br>• High risk comes iff flagged, and high value only with approval. <br>• The admin is notified iff the value is at least 100,000. |
| Filters.LowValueRejected | backend/src/features/NotificationGatekeeperPOC/gatekeeper/filters.ts:52-66 | A low value is rejected quietly (normal risk, score 95) whatever the profile. |
| Filters.NoBudgetRejected | backend/src/features/NotificationGatekeeperPOC/gatekeeper/filters.ts:52-66 | A missing budget is rejected without notification. |
| Filters.SuggestedRows | backend/src/features/NotificationGatekeeperPOC/gatekeeper/filters.ts:133-151 | An empty category gives nothing. Otherwise the result is min(3, m) of the m matching suppliers, taken from the input (a sub-multiset), best reputation first. If fewer than 3 are returned, every match is among them, and every match left out ranks no higher than those kept. |
| Filters.SuggestedTiesInOrder | backend/src/features/NotificationGatekeeperPOC/gatekeeper/filters.ts:133-151 | Suppliers with equal reputation keep their input order. The suggested rows of any one reputation are a prefix of the matching rows of that reputation. |
| Filters.SuggestSuppliers | backend/src/features/NotificationGatekeeperPOC/gatekeeper/filters.ts:133-151 | The ids of the suggested rows, in their order (best reputation first): at most 3, each the id of a supplier whose expertise matches a keyword, and none for an empty category. |
| Filters.EmptyKeywordMatchesAll | backend/src/features/NotificationGatekeeperPOC/gatekeeper/filters.ts:137-150 | An empty keyword, as left by a trailing comma, matches every supplier that has some expertise. |
| Filters.TrustScore | backend/src/features/NotificationGatekeeperPOC/gatekeeper/filters.ts:156-190 | The accumulated score equals the sum of the point table, clamped and rounded, and lies in [0, 100]. |
| Filters.EmptyProfileTrust | backend/src/features/NotificationGatekeeperPOC/gatekeeper/filters.ts:156-190 | An empty profile scores the base 50. |
| Score.ClientBadges | backend/src/features/NotificationGatekeeperPOC/gatekeeper/scoreAI.ts:26-65 | A badge is present iff the profile earns it. Badges come in the fixed order, each at most once. |
| Score.EarnedBelowSpec | backend/src/features/NotificationGatekeeperPOC/gatekeeper/scoreAI.ts:26-65 | The list built up to a rank holds exactly the earned badges below that rank, with strictly increasing ranks. |
| Score.BadgesExclusive | backend/src/features/NotificationGatekeeperPOC/gatekeeper/scoreAI.ts:29-62 | "Client Premium" and "Credit Watch" never come together, nor do "Partener Vechi" and "Rising Star". |
| Score.DailyStatsOf | backend/src/features/NotificationGatekeeperPOC/gatekeeper/scoreAI.ts:129-139 | The total is the list length. Each count is the number of statuses of its kind (`pending` counts null, empty and `pending`), and the four add up to at most the total. |
| Score.DisjointCounts | backend/src/features/NotificationGatekeeperPOC/gatekeeper/scoreAI.ts:129-139 | The approved, rejected, flagged and pending (null, empty or `pending`) counts are disjoint. |
| Score.RiskIndicators | backend/src/features/NotificationGatekeeperPOC/gatekeeper/scoreAI.ts:173-183 | `high_risk` maps to red, `high_value` to yellow, and anything else to green. |
| Service.GatekeeperService.constructor | backend/src/features/NotificationGatekeeperPOC/service.ts:18-19 | The service starts stopped, with no polling. |
| Service.GatekeeperService.Start | backend/src/features/NotificationGatekeeperPOC/service.ts:24-55 | Starting a running or unconfigured service changes nothing. Otherwise the service is running and polling. |
| Service.GatekeeperService.Stop | backend/src/features/NotificationGatekeeperPOC/service.ts:60-67 | Afterwards the service is stopped and not polling. |
| Service.StartTwice | backend/src/features/NotificationGatekeeperPOC/service.ts:25-28 | A second start is a no-op: after two starts the service runs iff it ran before or was configured, and polling is as the first start left it. |
| Service.Decided | backend/src/features/NotificationGatekeeperPOC/service.ts:147-160 | The record carries the verdict's decision, risk level and score and the processing time. The status, owner and budget are kept. |
| Service.AfterProcess | backend/src/features/NotificationGatekeeperPOC/service.ts:118-188 | Processing keeps the set of RFQs and the users. |
| Service.ProcessEffect | backend/src/features/NotificationGatekeeperPOC/service.ts:147-170 | Processing one RFQ changes nothing when its client is missing. Otherwise it records the verdict's decision on that RFQ and appends exactly one log entry with the same decision. Every other table and every other RFQ is untouched. |
| Service.NotificationFor | backend/src/features/NotificationGatekeeperPOC/service.ts:220-245 | A notification is sent iff the admin is to be notified. Its kind follows the decision and the risk level (high value, normal approval, high risk, rejection). |
| Service.NotifiedUnlessLowValue | backend/src/features/NotificationGatekeeperPOC/service.ts:173-182 | The admin is notified unless the budget is below the minimum. The high-value notice comes iff the value is above the threshold and the reputation is good. |
| Service.SuggestedAreSuppliers | backend/src/features/NotificationGatekeeperPOC/service.ts:131-155 | Given the rows of the supplier accounts, every suggested supplier is a supplier account. |
| Service.ProcessRfq | backend/src/features/NotificationGatekeeperPOC/service.ts:118-188 | The store ends in the processed state. A notification is returned only for an RFQ with an existing client, and then it is the verdict's notification. The suppliers recorded as suggested are supplier accounts. |
| Service.AfterBatch | backend/src/features/NotificationGatekeeperPOC/service.ts:107-109 | Processing a batch in order keeps the set of RFQs and the users. |
| Service.AfterBatchFrame | backend/src/features/NotificationGatekeeperPOC/service.ts:107-109 | A batch changes only its own RFQs. It appends at most one log entry per RFQ, keeps the earlier log, and leaves offers, orders and negotiations untouched. |
| Service.AfterBatchDecides | backend/src/features/NotificationGatekeeperPOC/service.ts:107-109 | Every RFQ of the batch with an existing client ends with a decision. |
| Service.AfterBatchClients | backend/src/features/NotificationGatekeeperPOC/service.ts:107-109 | No RFQ changes owner. |
| Service.ProcessInOrder | backend/src/features/NotificationGatekeeperPOC/service.ts:107-109 | The loop's final state is the batch processed one RFQ after another. |
| Service.CheckForNewRfqs | backend/src/features/NotificationGatekeeperPOC/service.ts:72-113 | A poll reads at most 10 distinct undecided drafts, all of them when there are fewer, and processes them in order. |
| Service.PurgeOldRejected | backend/src/features/NotificationGatekeeperPOC/service.ts:343-363 | Exactly the auto-rejected RFQs processed before the cutoff are deleted. The rest are kept unchanged, and the count is the number removed. |
| Service.ProcessManually | backend/src/features/NotificationGatekeeperPOC/service.ts:368-384 | A missing RFQ gives an error and no change. An existing one is processed exactly as the poll does. |
| Statistics.DashboardOf | backend/src/routes/statistics.ts:11-110 | The board follows the role, and each count is the size of its set: the admin's active RFQs, all offers and non-archived orders; the client's RFQs, its final or accepted offers and its non-archived orders; the supplier's open RFQs, its offers and its orders. The admin's counts never exceed the table sizes. |
| Statistics.BoardsAgree | backend/src/routes/statistics.ts:20-36 | A supplier's open RFQs are among the admin's active ones, and a client's active orders are among the admin's active orders. |
| Statistics.CommissionRate | backend/src/routes/statistics.ts:120-130 | The rate lies between 5% and 10%. |
| Statistics.Commission | backend/src/routes/statistics.ts:120-130 | For a non-negative value the commission lies between 5% and 10% of it. |
| Statistics.CommissionByRate | backend/src/routes/statistics.ts:112-130 | The commission is the value times the bracket rate, and the rate does not increase with the value. |
| Statistics.CommissionDropsAtBracket | backend/src/routes/statistics.ts:120-130 | The amount is not monotone: crossing 100000 or 1000000 lowers the commission. |
| Statistics.Category | backend/src/routes/statistics.ts:203-204 | A category contains no space. |
| Statistics.CategoryIsFirstWord | backend/src/routes/statistics.ts:203-204 | The category is the title's prefix up to its first space. |
| Statistics.LedgerOfKeys | backend/src/routes/statistics.ts:189-225 | The tallies have exactly the names that occur among the orders, listed once each. |
| Statistics.LedgerOfSums | backend/src/routes/statistics.ts:189-225 | Each name's count, revenue and commission are exactly the sums over the orders that carry that name. |
| Statistics.LedgerOfRatings | backend/src/routes/statistics.ts:219-222 | A supplier's rating is the one on its first order. |
| Statistics.LedgerOfTotal | backend/src/routes/statistics.ts:203-210 | The per-category counts add up to the number of completed orders. |
| Statistics.CommissionTotalBounds | backend/src/routes/statistics.ts:189-200 | The total commission lies between 5% and 10% of the total revenue. |
| Statistics.Tabulate | backend/src/routes/statistics.ts:189-225 | The loop produces exactly the revenue and commission sums and the three tallies. |
| Statistics.PeriodStart | backend/src/routes/statistics.ts:143-173 | Only `all` (or any unknown period) has no start, and a week starts 7 days before now. |
| Statistics.PercentBounded | backend/src/routes/statistics.ts:262-294 | A part of a whole is between 0% and 100%. The rate is 0 when the whole is 0, and otherwise the rate times the whole is 100 times the part. |
| Statistics.ShareOf | backend/src/routes/statistics.ts:262-294 | A share keeps its total and part. Its rate lies in [0, 100], is 0 for a zero total, and otherwise is the part as a percentage of the total. |
| Statistics.AverageRateBounded | backend/src/routes/statistics.ts:278 | With positive revenue, the average commission rate lies between 5% and 10%. |
| Statistics.RowsOf | backend/src/routes/statistics.ts:176-186 | Each completed order resolves to its row, one row per id. |
| Statistics.PercentScales | backend/src/routes/statistics.ts:265-266 | For a positive whole, the percentage times the whole is a hundred times the part. |
| Statistics.SummaryOf | backend/src/routes/statistics.ts:262-279 | The summary keeps the totals. The average order value times the number of orders is the revenue, and the average commission rate times the revenue is a hundred times the commission; each is 0 when its denominator is 0. |
| Statistics.RfqStatsOf | backend/src/routes/statistics.ts:265-285 | The RFQ block keeps its counts; the conversion rate is 0 with no RFQs, and otherwise the rate times the RFQ count is a hundred times the order count. |
| Statistics.RfqBlock | backend/src/routes/statistics.ts:238-285 | The counts are exactly the window's RFQs and its open (published, offers received, negotiation) and closed ones, the open and closed ones within the total, with the conversion rate of the orders. |
| Statistics.OfferShare | backend/src/routes/statistics.ts:247-290 | The share counts exactly the window's offers, with the accepted ones as the part and the share's rate. |
| Statistics.NegotiationShare | backend/src/routes/statistics.ts:255-295 | The share counts exactly the window's negotiations, with the completed ones as the part and the share's rate. |
| Statistics.TopFive | backend/src/routes/statistics.ts:227-236 | min(5, n) entries from the input, by revenue highest first, and no entry left out has more revenue than one kept. |
| Statistics.TopFiveTiesInOrder | backend/src/routes/statistics.ts:227-236 | Entries with equal revenue keep their first-seen order. The kept entries of any one revenue are a prefix of all the entries of that revenue. |
| Statistics.BuildReport | backend/src/routes/statistics.ts:228-302 | The response has these properties: <br>• The average order value, the average commission rate and the conversion rate are the averages and percentages of their inputs, each 0 when its denominator is 0; the rates lie in [0, 100]. <br>• The RFQ counts are exactly the window's RFQs, open RFQs and closed RFQs, the latter two within the total. <br>• The offer and negotiation shares count exactly the window's offers (accepted ones as the part) and negotiations (completed ones as the part), with the rate each share gives. <br>• The category breakdown is a permutation of the tallies sorted by revenue. <br>• The top lists have min(5, n) entries, taken from the tallies, sorted by revenue, and no tally left out has more revenue than one kept. |
| Statistics.Earnings | backend/src/routes/statistics.ts:137-307 | Only an admin gets the report. Its totals are the sums over exactly the completed orders in the period, and its order count is their number. |
| SupplierMap.MatchingSpec | frontend/src/features/SupplierMap/SupplierMapService.ts:83-101 | The results are a subsequence of the input, holding exactly the suppliers that match the non-blank material and location terms. With no terms, the result is the whole list. |
| SupplierMap.WithDistances | frontend/src/features/SupplierMap/SupplierMapService.ts:118-127 | Each supplier gets its distance, and order and length are kept. |
| SupplierMap.Search | frontend/src/features/SupplierMap/SupplierMapService.ts:79-130 | The search returns the matching suppliers, in order, each with its distance. |
| Text.UnicodeSpacesBlank | frontend/src/features/SupplierMap/SupplierMapService.ts:86 | `trim` removes the Unicode space separators too, so a material term made only of them (here U+3000, U+2000 and U+202F) is blank and no material filter applies. |
| SupplierMap.TopSuppliers | frontend/src/features/SupplierMap/SupplierMapService.ts:186-190 | The result has min(limit, n) suppliers taken from the input (a sub-multiset), sorted by orders won descending. No supplier left out ranks above one kept. |
| SupplierMap.TopSuppliersTiesInOrder | frontend/src/features/SupplierMap/SupplierMapService.ts:186-190 | Suppliers with equal orders won keep their input order, as the stable `sort` does. The kept suppliers of any one count are a prefix of all the suppliers of that count. |
| SupplierMap.DeliveryDaysMonotone | frontend/src/features/SupplierMap/SupplierMapService.ts:215-218 | A longer distance never gives fewer days. |
| SupplierMap.EstimateLeadingNumber | frontend/src/features/SupplierMap/SupplierMapService.ts:215-224 | The estimate is two words. The first is the number of days below a week, and otherwise the number of whole weeks. |
| SupplierMap.EstimateForm | frontend/src/features/SupplierMap/SupplierMapService.ts:215-224 | The wording is "1 zi", "N zile", or N weeks, singular for one week. |
| SupplierMap.MaxReputationSpec | frontend/src/features/SupplierMap/SupplierMapService.ts:151-181 | The top reputation is the highest reputation in the list, and some supplier has it. |
| SupplierMap.CalculateStats | frontend/src/features/SupplierMap/SupplierMapService.ts:150-181 | No suppliers give all zeros. Otherwise the count is the list length and the top reputation is the highest one. |
| SupplierMap.Recommend | frontend/src/features/SupplierMap/SupplierMapService.ts:230-259 | There is no recommendation iff the list is empty. Otherwise the recommendation is a supplier with the highest score. |

## Left out

- Persistence: Prisma calls, HTTP status codes and zod are not modelled. Request bodies and tables are values, validation is predicates, and status codes are `Outcome` variants.
- Foreign keys: the database schema is not part of this model, so neither are its restrict and cascade rules. A delete removes only its own row, and rows that referred to it keep the dangling id. A later handler that follows such an id gives `Outcome.Internal` with no change. `Store.Inv` does not state referential integrity.
- Offers.Delete: an offer sent back to `under_review` by a cancelled negotiation can be deleted, and its negotiation and messages keep its id; the real database would refuse the delete or cascade it.
- Users.Delete: a user who still owns RFQs, offers or orders is removed, and those rows keep the id; the real database would refuse the delete or cascade it.
- Rfqs.Delete: the RFQ's offers, negotiations and orders keep its id; the real database would refuse the delete or cascade it.
- GatekeeperRoutes.DeleteRejected: an RFQ rejected through the bot after offers arrived is removed, and the offers keep its id; the real database would refuse the delete or cascade it.
- Service.PurgeOldRejected: as for GatekeeperRoutes.DeleteRejected, rows that refer to a purged RFQ keep its id.
- Transactions and concurrency: each handler is one atomic step.
- Authentication, JWT and password hashing: the caller `{userId, role}` is a trusted input.
- UUIDs are modelled as natural numbers drawn from a counter. Format checks on ids are not modelled.
- Telegram I/O (sending and editing messages, `answerCallbackQuery`) and the text templates in `messages.ts` are left out. So are the explanation text of the evaluation and the daily digest, which are strings formatted for a locale and a date.
- Bot.Dispatch: `handleStartNegotiation`, `handleViewDetails` and `handleViewOfferDetails` only read and send messages, so for them the dispatch changes nothing.
- Bot.AcceptTerms: the newest message is the last one inserted into the negotiation, not the one with the latest `createdAt`. The two agree when message times increase.
- Timers: `setInterval`/`setTimeout` scheduling and the daily digest timer are left out. Clock readings are parameters, and a poll takes one reading per RFQ.
- Service.GatekeeperService.Start: the environment checks are one `configured` flag. The thresholds of the rules are fixed at their default values.
- Service.CheckForNewRfqs: the database picks which eligible RFQs a poll reads and the supplier rows it reads. Both are parameters, constrained by the predicates `IsBatch` and `SupplierRowsOf`, which the processing methods require.
- The client-profile admin route (backend/src/features/NotificationGatekeeperPOC/routes.ts:351-397) only reads, and is left out.
- The earnings trend (`generateEarningsTrend`) is a per-day and per-month chart series, and is left out.
- Statistics.Record: tallies keep names in the order they first occur. The source keys plain objects, and `Object.entries` lists integer-like keys (a category "2024", a username "123") first, in ascending order. Among equal revenues this can change the order of the breakdown and which five names the top lists keep.
- Statistics.BuildReport: a name that matches an inherited object property (`constructor`, `toString`) is tallied here. In the source, `!obj[key]` is false for such a name, so it never gets its own entry.
- Statistics: client and supplier tallies carry a commission field, and category and client tallies carry a rating field; the response does not show these. The date window of the earnings period is a parameter (midnight, month start, year start).
- SupplierMap: the Haversine distance and the city coordinates become the function parameters `distanceFrom` and `fromDefault`. `getAllSuppliers`, `getSupplierById` and `getClosestSuppliers` only copy, look up or sort the mock list, and are not modelled. The mock supplier list is a parameter.
- SupplierMap.CalculateStats: the averages are stated for the empty list only. For a non-empty list only the count and the top reputation are proved.
- Floating point: money and scores are mathematical reals, so IEEE rounding is not modelled. `Math.round` is floor(x + 0.5).
- Text.ToLower: lower-casing covers ASCII and the Romanian letters only, with no full Unicode case mapping. String lengths count characters, not UTF-16 code units.
- Users.CreateCheck: the email check is a simplified form test (a non-empty local part, exactly one `@`, and a dot inside the domain), not zod's full pattern.
- Rfqs.ListRfqs: for an administrator, RFQs with no gatekeeper status are listed. The source filters with Prisma's `NOT: { gatekeeperStatus: 'auto_rejected' }`; under SQL null semantics `NOT (x = v)` is unknown for a null `x`, so the real query may leave those RFQs out.
- SQL null semantics: a null column is `None`, and a JavaScript falsy value (0, "", null) falls back to the default where the code uses `||`.
- The front-end pages, the seed script and the router mounting in `index.ts` are not part of this model.
