# GoGo Lamp payment visualizer — a Dafny model of its core

The system shows Stripe payments live. The server takes the
`payment_intent.succeeded` webhook or a test-payment request. It stores a
minimal payment record in an in-memory store and broadcasts a
`payment_received` message to every connected viewer. The viewer lights a
lamp through a four-state animation driven by timers. It also keeps a
rolling list of the last five payments.

The model has four modules:

- `Schema` (schema.dfy): the `User` and `Payment` records and their insert
  shapes, plus `Option` and `Result`.
- `Storage` (storage.dfy): `MemStorage` as a class. Its `users` and
  `payments` fields are `map`s, and each map is paired with the sequence
  of its keys in insertion order. A JavaScript `Map` iterates in that
  order, and both `getUserByUsername` and the stable sort of
  `getRecentPayments` depend on it. The sort is a stable insertion sort,
  newest first. It is proved sorted, a permutation of its input, and
  stable.
- `Routes` (routes.dfy): the webhook and test-payment handlers. Each has a
  pure outcome function and a method that runs it against a
  `MemStorage`. An outcome lists the status, the reply, the store write
  and the broadcast payload. The module also has the history endpoint and
  the `activeConnections` set as a class over a `set`.
- `Lamp` (lamp.dfy): the viewer component as a class. Its fields are
  `lampState`, `currentAmount`, `paymentHistory` and a multiset of
  pending timer events. Each `setTimeout` callback is a timer event that
  `Fire` runs. Nothing cancels a timer.

Parameters stand in for randomness, clocks and foreign code:

- `randomUUID()` becomes "some id not already in the map", chosen with
  `:|` after a lemma shows such an id exists.
- `new Date()` and `Date.now()` become one integer `now` (milliseconds)
  per request.
- Stripe's `webhooks.constructEvent` and `JSON.parse` become function
  parameters of `ReadEvent`. The webhook secret is a string, where `""`
  means unset.

Four behaviours of the code are easy to misread, and the model follows
the code as written:

- Ties in `getRecentPayments`. The comparator at server/storage.ts:53
  returns 0 for equal timestamps, and JavaScript's sort is stable, so
  payments created at the same instant keep their insertion order, oldest
  first (`TiesKeepInsertionOrder`). A limited query returns the earliest
  stored of them (`MemStorage.GetRecentPayments`).
- Duplicate payment ids. shared/schema.ts:14 declares `stripePaymentId`
  `unique()`, but `MemStorage.createPayment` checks nothing, so a repeated
  `stripePaymentId` is stored a second time
  (`RepeatedStripeIdStoredTwice`).
- History amounts. The startup fetch takes each stored amount "as-is from
  server" (client/src/components/gogo-lamp.tsx:72), which is in cents.
  Live entries carry the broadcast amount, in dollars, so the list mixes
  the two units (`LiveAndFetchedAmountsDiffer`).
- Manual reset. The component never calls `clearTimeout`, so a reset
  leaves earlier timers pending and they still fire (`GoGoLamp.Fire`,
  `GoGoLamp.ResetLamp`).

## Model

| member | source | states |
|---|---|---|
| `Storage.FreshIdExists` | server/storage.ts:39 | whatever ids are in use, an unused id exists, so the store can always draw a fresh one |
| `Storage.InOrder` | server/storage.ts:51 | the values of a map listed in the order of its key sequence: one value per entry of the order, in that order |
| `Storage.InsertNewest` | server/storage.ts:52-53 | insertion adds exactly that payment (as a multiset), at the head or behind the old head |
| `Storage.InsertNewestKeepsOrder` | server/storage.ts:52-53 | inserting into a newest-first list keeps it newest first |
| `Storage.InsertNewestCreatedAt` | server/storage.ts:52-53 | an inserted payment goes ahead of every payment with its own timestamp, and those keep their order |
| `Storage.SortNewestFirst` | server/storage.ts:52-53 | the comparator sort yields a non-increasing-timestamp permutation of its input, of the same length |
| `Storage.SortIsStable` | server/storage.ts:52-53 | for every instant, the payments created at that instant keep their input (insertion) order after sorting |
| `Storage.Recent` | server/storage.ts:50-54 | sort then slice: exactly min(limit, n) payments drawn from the input, newest first, and none left out is newer than one returned |
| `Storage.CreatedAtPrefix` | server/storage.ts:54 | slicing keeps, for every instant, a prefix of the payments created at that instant, so a stable sort then slice returns the earliest stored of tied payments |
| `Storage.PrefixHoldsNewest` | server/storage.ts:54 | slicing a newest-first list leaves out only payments no newer than every one kept |
| `Storage.SortOfOldestFirstIsReversed` | server/storage.ts:51-53 | when payments were created at strictly increasing instants, the query order is reverse insertion order (P1..P6 gives P6,P5,...) |
| `Storage.ReversedElements` | server/storage.ts:51-53 | reversing a list keeps exactly its elements |
| `Storage.InsertOldestLast` | server/storage.ts:52-53 | a payment older than all others is sorted to the end |
| `Storage.TiesKeepInsertionOrder` | server/storage.ts:51-53 | two payments with the same timestamp come out oldest first |
| `Storage.FindByUsername` | server/storage.ts:26-28 | `find` returns the first user with that username, or nothing exactly when no user has it |
| `Storage.CurrencyOrDefault` | server/storage.ts:42 | the stored currency is never empty: it is the given one when present and non-empty, otherwise "usd" |
| `Storage.MemStorage.constructor` | server/storage.ts:16-19 | a new store holds no users and no payments |
| `Storage.MemStorage.Users` | server/storage.ts:26 | the stored users, one per key, in insertion order |
| `Storage.MemStorage.Payments` | server/storage.ts:51 | the stored payments, one per key, in insertion order |
| `Storage.MemStorage.GetUser` | server/storage.ts:21-23 | a user is returned exactly when the id is stored, and that user carries the id |
| `Storage.MemStorage.GetUserByUsername` | server/storage.ts:25-29 | returns a stored user with that username if one exists, otherwise nothing |
| `Storage.MemStorage.CreateUser` | server/storage.ts:31-36 | adds exactly one user under a fresh id, keeps the given fields and payments, and `getUser` of the new id returns it |
| `Storage.MemStorage.CreatePayment` | server/storage.ts:38-47 | adds exactly one payment under a fresh id, appended to insertion order, with the given id and amount, the default currency filled in and timestamp `now`; users and earlier payments unchanged |
| `Storage.MemStorage.GetRecentPayments` | server/storage.ts:50-55 | at most `limit` (default 10) items and at most as many as are stored, drawn without repetition from the stored payments (multiset inclusion), newest first, none omitted newer than one returned; for each instant the payments returned are the earliest stored ones created at it, in storage order (the stable sort); reads only |
| `Storage.RepeatedStripeIdStoredTwice` | server/storage.ts:38-47 | creating two payments with the same `stripePaymentId` stores both, under different ids |
| `Routes.ReadEvent` | server/routes.ts:40-48 | with a secret set the event is the signature check's result; without one it is the JSON parse's, whatever the signature |
| `Routes.SignatureIgnoredWithoutSecret` | server/routes.ts:43-48 | without a secret, two requests differing only in signature read the same event |
| `Routes.WebhookWrite` | server/routes.ts:55-64 | a write is requested exactly for a read `payment_intent.succeeded` event, carrying the intent's id, amount and currency |
| `Routes.Broadcast` | server/routes.ts:67-73 | the broadcast amount times 100 is the intent's amount in cents; id and timestamp are the stored payment's |
| `Routes.WebhookOutcome` | server/routes.ts:40-85 | 400 exactly on a read failure, with no write or broadcast; 500 exactly when the write fails, replying `{error: message}` with no broadcast; a broadcast exactly after a successful write; any other event type is acknowledged with `{received: true}` and no effect |
| `Routes.NoWriteNoEffect` | server/routes.ts:49-52 | a rejected or ignored event has the same outcome whatever the store would answer, and broadcasts nothing |
| `Routes.HandleWebhook` | server/routes.ts:36-86 | the store gains exactly one payment built from the intent when the event is a succeeded intent, and nothing otherwise; the outcome broadcasts that stored payment |
| `Routes.Decimal` | server/routes.ts:95 | `${Date.now()}` renders a natural number as one or more decimal digits |
| `Routes.DecimalRoundTrip` | server/routes.ts:95 | reading back the rendered digits gives the number again |
| `Routes.TestIdsDiffer` | server/routes.ts:95 | test payments made at different instants get different `stripePaymentId`s |
| `Routes.TestAmount` | server/routes.ts:91 | the requested amount, or 1000 when the request names none |
| `Routes.TestPaymentWrite` | server/routes.ts:94-98 | the test write has a `test_`-prefixed numeric id, amount × 100 cents, currency "usd" |
| `Routes.TestPaymentOutcome` | server/routes.ts:89-113 | on success: 200 with the created payment and a broadcast of the unconverted amount, so stored cents = 100 × broadcast; on store failure: 500 with `{error: message}` and no broadcast |
| `Routes.HandleTestPayment` | server/routes.ts:89-113 | the store gains exactly one payment (amount × 100, "usd", timestamp `now`) and the outcome broadcasts it |
| `Routes.PaymentHistory` | server/routes.ts:116-123 | the five most recent stored payments (fewer only when fewer are stored), newest first, without repetition; none omitted is newer than one returned, and ties are resolved in favour of the earliest stored |
| `Routes.Connections.constructor` | server/routes.ts:23 | the connection set starts empty |
| `Routes.Connections.Connect` | server/routes.ts:25-26 | a connecting socket is added to the set |
| `Routes.Connections.Disconnect` | server/routes.ts:29-30 | a disconnecting socket is removed; removing an absent socket changes nothing |
| `Lamp.IsActive` | client/src/components/gogo-lamp.tsx:139 | the lamp counts as lit (the same test guards activation at line 93) exactly when it is neither idle nor cooling |
| `Lamp.Prepend` | client/src/components/gogo-lamp.tsx:120-122 | the new item is the head, followed by the first up to four prior items in order; the length is 1 + min(n, 4), never above 5 |
| `Lamp.FromEvent` | client/src/components/gogo-lamp.tsx:46-50 | a live history entry has the message's payment id and amount, unconverted |
| `Lamp.FromServer` | client/src/components/gogo-lamp.tsx:71-76 | the fetched history keeps the server's order, length, ids and amounts, with no unit conversion |
| `Lamp.LiveAndFetchedAmountsDiffer` | client/src/components/gogo-lamp.tsx:71-76 | a webhook payment's live entry shows one hundredth of the amount its fetched entry shows |
| `Lamp.GoGoLamp.constructor` | client/src/components/gogo-lamp.tsx:20-27 | the lamp starts idle at amount 0 with an empty history and no timers |
| `Lamp.GoGoLamp.ActivateLamp` | client/src/components/gogo-lamp.tsx:92-109 | while lit (activating or active, i.e. `isActive`) nothing changes; otherwise the lamp is activating, shows the amount, and the activation timer is scheduled; the invariant is kept |
| `Lamp.GoGoLamp.ResetLamp` | client/src/components/gogo-lamp.tsx:111-118 | from any state the lamp is cooling and the cooldown timer is scheduled; no earlier timer is cancelled |
| `Lamp.GoGoLamp.Fire` | client/src/components/gogo-lamp.tsx:101-117 | the activation timer makes the lamp active and schedules the dwell; the dwell runs a reset; the cooldown makes it idle at amount 0; every non-idle state keeps a timer pending that moves it on |
| `Lamp.GoGoLamp.AddPaymentToHistory` | client/src/components/gogo-lamp.tsx:120-122 | the history becomes the prepended, capped list; lamp state untouched |
| `Lamp.GoGoLamp.OnPaymentReceived` | client/src/components/gogo-lamp.tsx:44-51 | every message is added to the history whatever the lamp state; the lamp is activated only if it was dark |
| `Lamp.GoGoLamp.LoadHistory` | client/src/components/gogo-lamp.tsx:67-80 | the history is replaced by the fetched list; lamp state untouched |
| `Lamp.FullCycle` | client/src/components/gogo-lamp.tsx:92-118 | one payment on a dark lamp goes activating, active, cooling, idle, ends at amount 0 with no timer pending and the payment in the history |
| `Lamp.SecondPaymentWhileActive` | client/src/components/gogo-lamp.tsx:44-51 | a second payment while active leaves the state and the shown amount, and is still recorded ahead of the first |

## Left out

- Socket.IO, Express, `fetch`, HTTP formatting and console logging are left out. A broadcast is modelled as the emitted payload, and a response as a status and reply value.
- The connection set is the only part of the broadcast hub in the source. `io.emit` sends to every connected socket directly, so no delivery is modelled.
- Stripe's `webhooks.constructEvent` and `JSON.parse` are foreign code. They are function parameters of `ReadEvent`.
- Malformed event envelopes are left out: the envelope is modelled as always well-formed, an event type plus an intent. In the source, a succeeded event without `data` throws at server/routes.ts:56, outside the handler's inner `try`. One with `data` but no `data.object` throws at server/routes.ts:61, inside that `try`, and is answered 500 `{error: …}` with no store write (server/routes.ts:78-80).
- Routes.HandleWebhook: never answers 500, because its envelopes are well-formed and `MemStorage.CreatePayment` cannot fail. The 500 path is modelled in `WebhookOutcome` and `TestPaymentOutcome`, where the store's answer is a parameter.
- `randomUUID` is assumed to return an id not already in the map. Collisions are not modelled.
- `new Date()` in the store and `Date.now()` in the test route are one `now` argument.
- Routes.TestAmount: amounts are integers. A fractional JSON amount, and floating-point rounding of `amount * 100` and `amount / 100`, are not modelled. Display amounts are exact `real`s.
- Storage.MemStorage.GetRecentPayments: `limit` is a `nat`. JavaScript's `slice` with a negative limit is not modelled.
- Wall-clock timer durations (500 ms, 5000 ms) and interleavings are left out. Timers are discrete events fired in any order the caller chooses.
- React hook semantics are left out. The socket handler is registered once and closes over the first render's `lampState`, so in the running component the guard sees `"idle"`. The model applies the guard to the current state, as the code reads.
- The timing of the asynchronous history fetch is left out. `LoadHistory` is a separate step the caller orders; called after `OnPaymentReceived` it replaces the live entries, as the fetch does when it resolves late.
- JSX markup, animation, sound playback, the clock display, `toLocaleTimeString` formatting and the random choice of test amounts are left out. They are presentation only.
- The `type: 'payment_received'` tag of the broadcast is left out. It is a constant.
- shared/schema.ts supplies only the record shapes. tailwind.config.ts is styling and is not part of this model.
