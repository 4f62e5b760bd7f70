/** The server's request handlers: the Stripe webhook, the test-payment
    endpoint, the recent-payments endpoint, and the set of connected
    viewer sockets.

    Each handler is described by a pure outcome (status, reply, the store
    write it asks for and the `payment_received` payload it broadcasts),
    and by a method that runs it against a `MemStorage`: write first, then
    emit. Socket.IO and Express are not modelled; a broadcast is the
    emitted payload value. */
module Routes {
  import opened Schema
  import opened Storage

  /** The only event type the webhook acts on. */
  const PaymentSucceeded: string := "payment_intent.succeeded"
  /** Amount, in dollars, of a test payment whose request names none. */
  const DefaultTestAmount: int := 1000
  /** How many payments the history endpoint returns. */
  const HistoryLimit: nat := 5
  const TestIdPrefix: string := "test_"

  /** The `data.object` of a payment-intent event: `amount` is in cents. */
  datatype PaymentIntent = PaymentIntent(id: string, amount: int, currency: string)

  /** A Stripe event envelope, reduced to its type and object. */
  datatype Event = Event(eventType: string, intent: PaymentIntent)

  /** The `payment_received` broadcast; `amount` is in dollars. */
  datatype PaymentReceived = PaymentReceived(
    amount: real,
    currency: string,
    timestamp: int,
    paymentId: Id)

  /** The JSON (or text) body of a response. */
  datatype Reply =
    | Received                         // { received: true }
    | WebhookError(text: string)       // "Webhook Error: <message>"
    | ServerError(message: string)     // { error: <message> }
    | TestCreated(payment: Payment)    // { success: true, payment }

  /** What a handler does: the response, the store write it performs (if
      any) and the payload it broadcasts (if any). */
  datatype Outcome = Outcome(
    status: int,
    reply: Reply,
    write: Option<InsertPayment>,
    emit: Option<PaymentReceived>)

  // ---------------------------------------------------------------------
  // Webhook

  /** The event the webhook works on: with a signing secret configured it
      comes from Stripe's signature check (`constructEvent`), otherwise
      from a plain JSON parse of the body, whatever the signature. */
  function ReadEvent(
    body: string, signature: string, secret: string,
    constructEvent: (string, string, string) -> Result<Event>,
    parseJson: string -> Result<Event>): (r: Result<Event>)
    ensures secret != "" ==> r == constructEvent(body, signature, secret)
    ensures secret == "" ==> r == parseJson(body)
  {
    if secret != "" then constructEvent(body, signature, secret) else parseJson(body)
  }

  /** Without a secret the signature header plays no part. */
  lemma SignatureIgnoredWithoutSecret(
    body: string, sig1: string, sig2: string,
    constructEvent: (string, string, string) -> Result<Event>,
    parseJson: string -> Result<Event>)
    ensures ReadEvent(body, sig1, "", constructEvent, parseJson)
         == ReadEvent(body, sig2, "", constructEvent, parseJson)
  {
  }

  /** The store write a webhook event asks for: one payment from the intent,
      and only for `payment_intent.succeeded`. */
  function WebhookWrite(read: Result<Event>): (w: Option<InsertPayment>)
    ensures w.Some? <==> read.Ok? && read.value.eventType == PaymentSucceeded
    ensures w.Some? ==>
      && w.value.stripePaymentId == read.value.intent.id
      && w.value.amount == read.value.intent.amount
      && w.value.currency == Some(read.value.intent.currency)
  {
    if read.Ok? && read.value.eventType == PaymentSucceeded then
      var intent := read.value.intent;
      Some(InsertPayment(intent.id, intent.amount, Some(intent.currency)))
    else None
  }

  /** The broadcast for a stored payment: the intent's amount converted
      from cents to dollars, its currency, and the stored id and time. */
  function Broadcast(intent: PaymentIntent, stored: Payment): (e: PaymentReceived)
    ensures e.amount * 100.0 == intent.amount as real
    ensures e.paymentId == stored.id && e.timestamp == stored.timestamp
    ensures e.currency == intent.currency
  {
    PaymentReceived(intent.amount as real / 100.0, intent.currency, stored.timestamp, stored.id)
  }

  /** The webhook's outcome once the event is read; `stored` is the store's
      answer to the write, consulted only when a write is made. */
  function WebhookOutcome(read: Result<Event>, stored: Result<Payment>): (o: Outcome)
    ensures o.write == WebhookWrite(read)
    ensures o.status == 400 <==> read.Err?
    ensures read.Err? ==> o.reply == WebhookError("Webhook Error: " + read.message)
    ensures o.status == 500 <==> o.write.Some? && stored.Err?
    ensures o.status == 500 ==> stored.Err? && o.reply == ServerError(stored.message)
    ensures o.status == 200 <==> o.reply == Received
    ensures o.emit.Some? <==> o.write.Some? && stored.Ok?
    ensures o.emit.Some? ==> o.emit.value == Broadcast(read.value.intent, stored.value)
    ensures o.status in {200, 400, 500}
  {
    match read
    case Err(message) => Outcome(400, WebhookError("Webhook Error: " + message), None, None)
    case Ok(event) =>
      if event.eventType == PaymentSucceeded then
        match stored
        case Ok(payment) =>
          Outcome(200, Received, WebhookWrite(read), Some(Broadcast(event.intent, payment)))
        case Err(message) => Outcome(500, ServerError(message), WebhookWrite(read), None)
      else Outcome(200, Received, None, None)
  }

  /** A rejected or ignored event neither writes nor broadcasts, whatever
      the store would have answered. */
  lemma NoWriteNoEffect(read: Result<Event>, s1: Result<Payment>, s2: Result<Payment>)
    requires WebhookWrite(read).None?
    ensures WebhookOutcome(read, s1) == WebhookOutcome(read, s2)
    ensures WebhookOutcome(read, s1).emit.None?
  {
  }

  /** Runs the webhook against the store: one `createPayment` for a
      succeeded payment intent, then its broadcast; nothing for a rejected
      or ignored event. */
  method HandleWebhook(storage: MemStorage, read: Result<Event>, now: int) returns (o: Outcome)
    requires storage.Valid()
    modifies storage
    ensures storage.Valid()
    ensures o.write == WebhookWrite(read)
    ensures storage.users == old(storage.users) && storage.userOrder == old(storage.userOrder)
    ensures o.write.None? ==>
      && storage.payments == old(storage.payments)
      && storage.paymentOrder == old(storage.paymentOrder)
      && forall stored :: o == WebhookOutcome(read, stored)
    ensures o.write.Some? ==>
      && |storage.paymentOrder| == |old(storage.paymentOrder)| + 1
      && var p := storage.payments[storage.paymentOrder[|storage.paymentOrder| - 1]];
      && p.id !in old(storage.payments)
      && storage.payments == old(storage.payments)[p.id := p]
      && storage.Payments() == old(storage.Payments()) + [p]
      && p.stripePaymentId == o.write.value.stripePaymentId
      && p.amount == o.write.value.amount
      && p.currency == CurrencyOrDefault(o.write.value.currency)
      && p.timestamp == now
      && o == WebhookOutcome(read, Ok(p))
  {
    var write := WebhookWrite(read);
    if write.Some? {
      var payment := storage.CreatePayment(write.value, now);
      o := WebhookOutcome(read, Ok(payment));
    } else {
      o := WebhookOutcome(read, Err(""));
    }
  }

  // ---------------------------------------------------------------------
  // Test payment

  /** The decimal digits of `n`, as `${n}` prints an integer. */
  function Decimal(n: nat): (r: string)
    ensures |r| >= 1
    ensures forall i :: 0 <= i < |r| ==> '0' <= r[i] <= '9'
    ensures n < 10 <==> |r| == 1
  {
    var digit := ['0' + (n % 10) as char];
    if n < 10 then digit else Decimal(n / 10) + digit
  }

  /** The number a string of decimal digits denotes. */
  function DigitsValue(s: string): nat
    requires forall i :: 0 <= i < |s| ==> '0' <= s[i] <= '9'
  {
    if s == [] then 0
    else DigitsValue(s[..|s| - 1]) * 10 + (s[|s| - 1] - '0') as nat
  }

  /** `Decimal` loses nothing: reading its digits back gives `n`. */
  lemma {:induction false} DecimalRoundTrip(n: nat)
    ensures DigitsValue(Decimal(n)) == n
  {
    var r := Decimal(n);
    assert r[..|r| - 1] == if n < 10 then [] else Decimal(n / 10);
    if n >= 10 {
      DecimalRoundTrip(n / 10);
    }
  }

  /** Test payments made at different instants get different
      `stripePaymentId`s. */
  lemma TestIdsDiffer(a1: Option<int>, now1: nat, a2: Option<int>, now2: nat)
    requires now1 != now2
    ensures TestPaymentWrite(a1, now1).stripePaymentId != TestPaymentWrite(a2, now2).stripePaymentId
  {
    DecimalRoundTrip(now1);
    DecimalRoundTrip(now2);
    assert TestPaymentWrite(a1, now1).stripePaymentId[|TestIdPrefix|..] == Decimal(now1);
    assert TestPaymentWrite(a2, now2).stripePaymentId[|TestIdPrefix|..] == Decimal(now2);
  }

  /** The amount of a test payment, in dollars: the requested one, or 1000. */
  function TestAmount(amount: Option<int>): (a: int)
    ensures amount.Some? ==> a == amount.value
    ensures amount.None? ==> a == DefaultTestAmount
  {
    match amount
    case Some(a) => a
    case None => DefaultTestAmount
  }

  /** The store write of a test payment made at instant `now`: an id
      `test_<now>`, the amount in dollars converted to cents, and currency
      "usd". */
  function TestPaymentWrite(amount: Option<int>, now: nat): (w: InsertPayment)
    ensures TestIdPrefix < w.stripePaymentId
    ensures forall i :: |TestIdPrefix| <= i < |w.stripePaymentId| ==> '0' <= w.stripePaymentId[i] <= '9'
    ensures w.amount == TestAmount(amount) * 100
    ensures w.currency == Some(DefaultCurrency)
  {
    InsertPayment(TestIdPrefix + Decimal(now), TestAmount(amount) * 100, Some("usd"))
  }

  /** The test payment's outcome given the store's answer: the created
      payment in the reply, and a broadcast whose amount is the requested
      one, unconverted, so stored cents / 100 equals the broadcast amount. */
  function TestPaymentOutcome(amount: Option<int>, now: nat, stored: Result<Payment>): (o: Outcome)
    ensures o.write == Some(TestPaymentWrite(amount, now))
    ensures o.status == 200 <==> stored.Ok?
    ensures o.status == 500 <==> stored.Err?
    ensures stored.Ok? ==> o.reply == TestCreated(stored.value)
    ensures stored.Err? ==> o.reply == ServerError(stored.message)
    ensures o.emit.Some? <==> stored.Ok?
    ensures o.emit.Some? ==>
      && o.emit.value.amount == TestAmount(amount) as real
      && o.emit.value.amount * 100.0 == o.write.value.amount as real
      && o.emit.value.currency == DefaultCurrency
      && o.emit.value.paymentId == stored.value.id
      && o.emit.value.timestamp == stored.value.timestamp
  {
    var write := TestPaymentWrite(amount, now);
    match stored
    case Ok(payment) =>
      var event := PaymentReceived(TestAmount(amount) as real, "usd", payment.timestamp, payment.id);
      Outcome(200, TestCreated(payment), Some(write), Some(event))
    case Err(message) => Outcome(500, ServerError(message), Some(write), None)
  }

  /** Runs the test-payment endpoint against the store: exactly one
      payment added, then its broadcast. */
  method HandleTestPayment(storage: MemStorage, amount: Option<int>, now: nat) returns (o: Outcome)
    requires storage.Valid()
    modifies storage
    ensures storage.Valid()
    ensures storage.users == old(storage.users) && storage.userOrder == old(storage.userOrder)
    ensures |storage.paymentOrder| == |old(storage.paymentOrder)| + 1
    ensures o.reply.TestCreated?
    ensures var p := o.reply.payment;
      && p.id !in old(storage.payments)
      && storage.payments == old(storage.payments)[p.id := p]
      && storage.Payments() == old(storage.Payments()) + [p]
      && p.stripePaymentId == TestPaymentWrite(amount, now).stripePaymentId
      && p.amount == TestAmount(amount) * 100
      && p.currency == DefaultCurrency
      && p.timestamp == now
      && o == TestPaymentOutcome(amount, now, Ok(p))
  {
    var payment := storage.CreatePayment(TestPaymentWrite(amount, now), now);
    o := TestPaymentOutcome(amount, now, Ok(payment));
  }

  // ---------------------------------------------------------------------
  // Payment history

  /** `GET /api/payments`: the five most recent payments, newest first. */
  function PaymentHistory(storage: MemStorage): (r: seq<Payment>)
    reads storage
    requires storage.Valid()
    ensures |r| <= HistoryLimit
    ensures |r| == HistoryLimit || |r| == |storage.payments|
    ensures NewestFirst(r)
    ensures forall x :: x in r ==> x.id in storage.payments && storage.payments[x.id] == x
    ensures forall x, k :: x in r && k in storage.payments && storage.payments[k] !in r ==>
              storage.payments[k].timestamp <= x.timestamp
    ensures multiset(r) <= multiset(storage.Payments())
    ensures forall t :: CreatedAt(r, t) <= CreatedAt(storage.Payments(), t)
  {
    storage.GetRecentPayments(HistoryLimit)
  }

  // ---------------------------------------------------------------------
  // Connected sockets

  type SocketId = string

  /** The `activeConnections` set: a socket is in it from its connection
      until its disconnection. */
  class Connections {
    var active: set<SocketId>

    constructor ()
      ensures active == {}
    {
      active := {};
    }

    method Connect(socket: SocketId)
      modifies this
      ensures active == old(active) + {socket}
    {
      active := active + {socket};
    }

    /** Deleting an absent socket leaves the set as it was. */
    method Disconnect(socket: SocketId)
      modifies this
      ensures active == old(active) - {socket}
      ensures socket !in old(active) ==> active == old(active)
    {
      active := active - {socket};
    }
  }
}
