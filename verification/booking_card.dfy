/** A booking's card: its status badge and the buttons it offers, which are
    the only way the application moves a booking between statuses. */
module BookingCard {
  import opened Common
  import opened Types
  import BookingContext

  datatype CardAction = SendPaymentLink | MarkPaid | MarkCompleted

  /** The buttons a card shows for a booking with status `s`, in order. */
  function Actions(s: Status): (r: seq<CardAction>)
    ensures s == Pending ==> r == [SendPaymentLink, MarkPaid]
    ensures s == Paid ==> r == [MarkCompleted]
    ensures s == Completed || s == Cancelled ==> r == []
  {
    match s
    case Pending => [SendPaymentLink, MarkPaid]
    case Paid => [MarkCompleted]
    case _ => []
  }

  /** The status a button writes, if it writes one. */
  function Target(a: CardAction): Option<Status>
  {
    match a
    case SendPaymentLink => None
    case MarkPaid => Some(Paid)
    case MarkCompleted => Some(Completed)
  }

  /** Some button on a card with status `s` sets status `t`. */
  predicate CardTransition(s: Status, t: Status)
  {
    exists a :: a in Actions(s) && Target(a) == Some(t)
  }

  /** The card moves pending to paid and paid to completed, and nothing else. */
  lemma {:induction false} CardTransitionsExact(s: Status, t: Status)
    ensures CardTransition(s, t) <==> (s == Pending && t == Paid) || (s == Paid && t == Completed)
  {
    if s == Pending && t == Paid {
      assert MarkPaid in Actions(s);
    }
    if s == Paid && t == Completed {
      assert MarkCompleted in Actions(s);
    }
  }

  /** The position of a status along the card's lifecycle. */
  function Rank(s: Status): nat
  {
    match s
    case Pending => 0
    case Paid => 1
    case Completed => 2
    case Cancelled => 3
  }

  /** The status after pressing `acts` in turn, each on the card as it then
      is; `None` when a button is pressed that the card does not show. */
  function Run(s: Status, acts: seq<CardAction>): Option<Status>
    decreases |acts|
  {
    if acts == [] then Some(s)
    else if acts[0] !in Actions(s) then None
    else Run(match Target(acts[0]) case Some(t) => t case None => s, acts[1..])
  }

  /** Pressing buttons never moves a booking backwards, and a booking ends
      up cancelled exactly when it started cancelled. */
  lemma {:induction false} RunMonotone(s: Status, acts: seq<CardAction>)
    requires Run(s, acts).Some?
    decreases |acts|
    ensures Rank(s) <= Rank(Run(s, acts).value)
    ensures Run(s, acts).value == Cancelled <==> s == Cancelled
  {
    if acts != [] {
      var next := match Target(acts[0]) case Some(t) => t case None => s;
      if Target(acts[0]).Some? {
        CardTransitionsExact(s, next);
        assert CardTransition(s, next);
      }
      RunMonotone(next, acts[1..]);
    }
  }

  /** The card's status badge. */
  function CardStatusColor(s: Status): (r: string)
    ensures r == "bg-yellow-100 text-yellow-800 border-yellow-200" <==> s == Pending
    ensures r == "bg-green-100 text-green-800 border-green-200" <==> s == Paid
    ensures r == "bg-blue-100 text-blue-800 border-blue-200" <==> s == Completed
    ensures r == "bg-red-100 text-red-800 border-red-200" <==> s == Cancelled
  {
    match s
    case Pending => "bg-yellow-100 text-yellow-800 border-yellow-200"
    case Paid => "bg-green-100 text-green-800 border-green-200"
    case Completed => "bg-blue-100 text-blue-800 border-blue-200"
    case Cancelled => "bg-red-100 text-red-800 border-red-200"
  }

  /** What pressing a button did. A payment-link request names the booking's
      document id and the customer's phone. */
  datatype Outcome = PaymentLinkRequested(bookingDocId: string, phone: string) | StatusWritten(ok: bool)

  /** Pressing a button the card shows for `b`: the payment-link button asks
      for a link for this booking and phone; the other two write their
      status through the store. */
  method Press(store: BookingContext.BookingStore, b: Booking, a: CardAction) returns (r: Outcome)
    requires store.Valid()
    requires a in Actions(b.status)
    modifies store
    ensures store.Valid()
    ensures store.customers == old(store.customers)
    ensures a == SendPaymentLink ==>
      r == PaymentLinkRequested(b.id, b.customerPhone) && store.bookings == old(store.bookings)
    ensures a != SendPaymentLink ==>
      r == StatusWritten(b.id in BookingContext.BookingIds(old(store.bookings)))
      && |store.bookings| == |old(store.bookings)|
      && forall k :: 0 <= k < |store.bookings| ==>
        store.bookings[k] == if old(store.bookings)[k].id == b.id
          then old(store.bookings)[k].(status := Target(a).value) else old(store.bookings)[k]
  {
    match a
    case SendPaymentLink =>
      r := PaymentLinkRequested(b.id, b.customerPhone);
    case MarkPaid =>
      var ok := store.UpdateBookingStatus(b.id, Paid);
      r := StatusWritten(ok);
    case MarkCompleted =>
      var ok := store.UpdateBookingStatus(b.id, Completed);
      r := StatusWritten(ok);
  }
}
