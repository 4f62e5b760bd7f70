/** The viewer: the lamp's four-state animation, its chained timers, and
    the rolling list of recent payments.

    Each `setTimeout` callback is a pending timer event; `Fire` runs one of
    them. Nothing cancels a timer, so a reset leaves earlier timers
    pending, and they still fire. */
module Lamp {
  import opened Schema
  import Routes

  datatype LampState = Idle | Activating | Active | Cooling

  /** The three `setTimeout` callbacks. */
  datatype Timer =
    | ActivationDelay   // 500 ms after activation: become active, start the dwell
    | Dwell             // 5000 ms after becoming active: reset the lamp
    | Cooldown          // 500 ms after a reset: become idle, amount back to 0

  /** An entry of the history list; `timestamp` is the instant its label is
      formatted from. */
  datatype HistoryItem = HistoryItem(amount: real, timestamp: int, id: string)

  /** The history list keeps this many entries. */
  const HistoryCap: nat := 5

  /** The lamp is lit while activating or active. */
  predicate IsActive(s: LampState): (r: bool)
    ensures r <==> s != Idle && s != Cooling
  {
    s == Active || s == Activating
  }

  /** The history after a new payment: the new item first, then the first
      (up to) four items that were there. */
  function Prepend(item: HistoryItem, prev: seq<HistoryItem>): (r: seq<HistoryItem>)
    ensures |r| == if |prev| < HistoryCap then |prev| + 1 else HistoryCap
    ensures r[0] == item
    ensures forall i :: 1 <= i < |r| ==> r[i] == prev[i - 1]
  {
    [item] + (if |prev| <= HistoryCap - 1 then prev else prev[..HistoryCap - 1])
  }

  /** The history entry for a `payment_received` message: its id and amount
      exactly as received. */
  function FromEvent(data: Routes.PaymentReceived): (item: HistoryItem)
    ensures item.id == data.paymentId && item.amount == data.amount
    ensures item.timestamp == data.timestamp
  {
    HistoryItem(data.amount, data.timestamp, data.paymentId)
  }

  /** The history built from the payments endpoint: same order and length,
      same ids, and the stored amounts as they are (in cents). */
  function FromServer(payments: seq<Payment>): (r: seq<HistoryItem>)
    ensures |r| == |payments|
    ensures forall i :: 0 <= i < |r| ==>
      r[i].id == payments[i].id
      && r[i].amount == payments[i].amount as real
      && r[i].timestamp == payments[i].timestamp
  {
    seq(|payments|, i requires 0 <= i < |payments| =>
      HistoryItem(payments[i].amount as real, payments[i].timestamp, payments[i].id))
  }

  /** A payment seen live and the same payment fetched later show amounts a
      factor 100 apart: the live path shows dollars, the fetched one cents. */
  lemma LiveAndFetchedAmountsDiffer(read: Result<Routes.Event>, p: Payment)
    requires Routes.WebhookWrite(read).Some?
    requires p.amount == read.value.intent.amount
    ensures Routes.WebhookOutcome(read, Ok(p)).emit.Some?
    ensures FromEvent(Routes.WebhookOutcome(read, Ok(p)).emit.value).amount * 100.0
            == FromServer([p])[0].amount
  {
  }

  class GoGoLamp {
    var lampState: LampState
    var currentAmount: real
    var paymentHistory: seq<HistoryItem>
    /** The timers scheduled and not yet fired. */
    var pending: multiset<Timer>

    /** The lamp is dark at amount 0 when idle, and every other state has
        the timer pending that moves it on, so it never gets stuck. */
    ghost predicate Valid()
      reads this
    {
      && (lampState == Idle ==> currentAmount == 0.0)
      && (lampState == Activating ==> ActivationDelay in pending)
      && (lampState == Active ==> Dwell in pending)
      && (lampState == Cooling ==> Cooldown in pending)
    }

    constructor ()
      ensures Valid()
      ensures lampState == Idle && currentAmount == 0.0
      ensures paymentHistory == [] && pending == multiset{}
    {
      lampState, currentAmount := Idle, 0.0;
      paymentHistory, pending := [], multiset{};
    }

    /** Starts the animation unless the lamp is already lit; a lit lamp
        keeps its state, amount and timers. */
    method ActivateLamp(amount: real)
      requires Valid()
      modifies this
      ensures Valid()
      ensures old(IsActive(lampState)) ==>
        lampState == old(lampState) && currentAmount == old(currentAmount) && pending == old(pending)
      ensures !old(IsActive(lampState)) ==>
        && lampState == Activating
        && currentAmount == amount
        && pending == old(pending) + multiset{ActivationDelay}
      ensures paymentHistory == old(paymentHistory)
    {
      if IsActive(lampState) {
        return;
      }
      lampState := Activating;
      currentAmount := amount;
      pending := pending + multiset{ActivationDelay};
    }

    /** From any state: cooling, with the cooldown scheduled. Pending timers
        are left as they are. */
    method ResetLamp()
      modifies this
      ensures Valid()
      ensures lampState == Cooling
      ensures pending == old(pending) + multiset{Cooldown}
      ensures currentAmount == old(currentAmount) && paymentHistory == old(paymentHistory)
    {
      lampState := Cooling;
      pending := pending + multiset{Cooldown};
    }

    /** Runs one pending timer's callback. */
    method Fire(t: Timer)
      requires Valid()
      requires t in pending
      modifies this
      ensures Valid()
      ensures paymentHistory == old(paymentHistory)
      ensures t == ActivationDelay ==>
        && lampState == Active
        && currentAmount == old(currentAmount)
        && pending == old(pending) - multiset{t} + multiset{Dwell}
      ensures t == Dwell ==>
        && lampState == Cooling
        && currentAmount == old(currentAmount)
        && pending == old(pending) - multiset{t} + multiset{Cooldown}
      ensures t == Cooldown ==>
        && lampState == Idle
        && currentAmount == 0.0
        && pending == old(pending) - multiset{t}
    {
      pending := pending - multiset{t};
      match t
      case ActivationDelay =>
        lampState := Active;
        pending := pending + multiset{Dwell};
      case Dwell =>
        ResetLamp();
      case Cooldown =>
        lampState := Idle;
        currentAmount := 0.0;
    }

    method AddPaymentToHistory(item: HistoryItem)
      modifies this
      ensures paymentHistory == Prepend(item, old(paymentHistory))
      ensures lampState == old(lampState) && currentAmount == old(currentAmount)
      ensures pending == old(pending)
    {
      paymentHistory := Prepend(item, paymentHistory);
    }

    /** A `payment_received` message: activate (if the lamp is dark) and
        record the payment in the history whatever the state. */
    method OnPaymentReceived(data: Routes.PaymentReceived)
      requires Valid()
      modifies this
      ensures Valid()
      ensures paymentHistory == Prepend(FromEvent(data), old(paymentHistory))
      ensures old(IsActive(lampState)) ==>
        lampState == old(lampState) && currentAmount == old(currentAmount) && pending == old(pending)
      ensures !old(IsActive(lampState)) ==>
        && lampState == Activating
        && currentAmount == data.amount
        && pending == old(pending) + multiset{ActivationDelay}
    {
      ActivateLamp(data.amount);
      AddPaymentToHistory(FromEvent(data));
    }

    /** The initial fetch: the history becomes the server's list. */
    method LoadHistory(payments: seq<Payment>)
      modifies this
      ensures paymentHistory == FromServer(payments)
      ensures lampState == old(lampState) && currentAmount == old(currentAmount)
      ensures pending == old(pending)
    {
      paymentHistory := FromServer(payments);
    }
  }

  /** One payment on a dark lamp: activating, active, cooling, then idle at
      amount 0 with no timer left, and the payment at the head of the
      history. */
  method FullCycle(data: Routes.PaymentReceived)
    returns (states: seq<LampState>, finalAmount: real, history: seq<HistoryItem>,
             timersLeft: multiset<Timer>)
    ensures states == [Activating, Active, Cooling, Idle]
    ensures finalAmount == 0.0
    ensures history == [FromEvent(data)]
    ensures timersLeft == multiset{}
  {
    var lamp := new GoGoLamp();
    lamp.OnPaymentReceived(data);
    states := [lamp.lampState];
    lamp.Fire(ActivationDelay);
    states := states + [lamp.lampState];
    lamp.Fire(Dwell);
    states := states + [lamp.lampState];
    lamp.Fire(Cooldown);
    states := states + [lamp.lampState];
    timersLeft := lamp.pending;
    finalAmount := lamp.currentAmount;
    history := lamp.paymentHistory;
  }

  /** A second payment while the lamp is lit changes neither the state nor
      the amount shown, and is still recorded in the history, ahead of the
      first. */
  method SecondPaymentWhileActive(first: Routes.PaymentReceived, second: Routes.PaymentReceived)
    returns (state: LampState, shown: real, history: seq<HistoryItem>)
    ensures state == Active
    ensures shown == first.amount
    ensures history == [FromEvent(second), FromEvent(first)]
  {
    var lamp := new GoGoLamp();
    lamp.OnPaymentReceived(first);
    lamp.Fire(ActivationDelay);
    lamp.OnPaymentReceived(second);
    state, shown, history := lamp.lampState, lamp.currentAmount, lamp.paymentHistory;
  }
}
