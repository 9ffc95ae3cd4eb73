/** The dashboard: revenue and completed-job figures, and the capped lists
    of today's bookings and pending payments. */
module Dashboard {
  import opened Types
  import Seqs
  import BookingContext

  function Amount(b: Booking): int { b.totalAmount }

  /** `totalRevenue`: the amounts of the paid and completed bookings, summed. */
  function TotalRevenue(bs: seq<Booking>): int
  {
    Seqs.Sum(Seqs.Filter(bs, HasPayment), Amount)
  }

  /** Reference revenue: every booking contributes its amount if it was paid for, else nothing. */
  function PaidAmounts(bs: seq<Booking>): int
  {
    if bs == [] then 0 else (if HasPayment(bs[0]) then bs[0].totalAmount else 0) + PaidAmounts(bs[1..])
  }

  /** The revenue figure is the reference sum, so it is never negative. */
  lemma {:induction false} TotalRevenueIsPaidAmounts(bs: seq<Booking>)
    ensures TotalRevenue(bs) == PaidAmounts(bs)
    ensures TotalRevenue(bs) >= 0
  {
    if bs != [] {
      TotalRevenueIsPaidAmounts(bs[1..]);
      var rest := Seqs.Filter(bs[1..], HasPayment);
      if HasPayment(bs[0]) {
        assert Seqs.Filter(bs, HasPayment) == [bs[0]] + rest;
        assert ([bs[0]] + rest)[1..] == rest;
      }
    }
  }

  /** A new booking raises the revenue by its amount if it is paid or completed,
      and leaves it unchanged if it is pending or cancelled. */
  lemma {:induction false} TotalRevenueAppend(bs: seq<Booking>, b: Booking)
    ensures TotalRevenue(bs + [b]) == TotalRevenue(bs) + (if HasPayment(b) then b.totalAmount else 0)
  {
    Seqs.FilterAppend(bs, [b], HasPayment);
    Seqs.SumAppend(Seqs.Filter(bs, HasPayment), Seqs.Filter([b], HasPayment), Amount);
  }

  /** `completedBookings`: how many bookings are completed. */
  function CompletedBookings(bs: seq<Booking>): (r: nat)
    ensures r <= |bs|
  {
    |Seqs.Filter(bs, (b: Booking) => b.status == Completed)|
  }

  /** Reference count: every completed booking contributes one. */
  function CompletedCount(bs: seq<Booking>): nat
  {
    if bs == [] then 0 else (if bs[0].status == Completed then 1 else 0) + CompletedCount(bs[1..])
  }

  /** The completed-jobs figure is the reference count. */
  lemma {:induction false} CompletedBookingsIsCount(bs: seq<Booking>)
    ensures CompletedBookings(bs) == CompletedCount(bs)
  {
    if bs != [] {
      CompletedBookingsIsCount(bs[1..]);
      CompletedStep(bs);
    }
  }

  lemma {:induction false} CompletedStep(bs: seq<Booking>)
    requires bs != []
    ensures CompletedBookings(bs) == CompletedBookings(bs[1..]) + (if bs[0].status == Completed then 1 else 0)
  {
  }

  /** The reference count is at most the number of bookings, reaches it
      exactly when every booking is completed, and is 0 exactly when none is. */
  lemma {:induction false} CompletedCountExtremes(bs: seq<Booking>)
    ensures CompletedCount(bs) <= |bs|
    ensures CompletedCount(bs) == |bs| <==> forall i :: 0 <= i < |bs| ==> bs[i].status == Completed
    ensures CompletedCount(bs) == 0 <==> forall i :: 0 <= i < |bs| ==> bs[i].status != Completed
  {
    if bs != [] {
      var rest := bs[1..];
      CompletedCountExtremes(rest);
      assert forall i :: 1 <= i < |bs| ==> bs[i] == rest[i - 1];
    }
  }

  /** The count reaches the number of bookings exactly when every booking is
      completed, and is 0 exactly when none is. */
  lemma {:induction false} CompletedBookingsExtremes(bs: seq<Booking>)
    ensures CompletedBookings(bs) == |bs| <==> forall i :: 0 <= i < |bs| ==> bs[i].status == Completed
    ensures CompletedBookings(bs) == 0 <==> forall i :: 0 <= i < |bs| ==> bs[i].status != Completed
  {
    CompletedBookingsIsCount(bs);
    CompletedCountExtremes(bs);
  }

  const TodayCap: nat := 3
  const PendingCap: nat := 5

  /** The bookings of today the dashboard shows: the first three. */
  function TodayShown(bs: seq<Booking>, now: int): (r: seq<Booking>)
    ensures |r| == if |BookingContext.TodayBookings(bs, now)| <= TodayCap
      then |BookingContext.TodayBookings(bs, now)| else TodayCap
    ensures r <= BookingContext.TodayBookings(bs, now)
  {
    Seqs.Take(BookingContext.TodayBookings(bs, now), TodayCap)
  }

  /** "View All" is offered when there are more than three bookings today. */
  function ShowViewAll(bs: seq<Booking>, now: int): bool
  {
    |BookingContext.TodayBookings(bs, now)| > TodayCap
  }

  /** "View All" is offered exactly when some booking of today is not shown. */
  lemma {:induction false} ViewAllWhenHidden(bs: seq<Booking>, now: int)
    ensures ShowViewAll(bs, now) <==> |TodayShown(bs, now)| < |BookingContext.TodayBookings(bs, now)|
  {
  }

  /** The pending payments the dashboard shows: the first five. */
  function PendingShown(bs: seq<Booking>): (r: seq<Booking>)
    ensures |r| == if |BookingContext.PendingPayments(bs)| <= PendingCap
      then |BookingContext.PendingPayments(bs)| else PendingCap
    ensures r <= BookingContext.PendingPayments(bs)
    ensures forall i :: 0 <= i < |r| ==> r[i].status == Pending
  {
    var pending := BookingContext.PendingPayments(bs);
    var r := Seqs.Take(pending, PendingCap);
    forall i | 0 <= i < |r| ensures r[i].status == Pending {
      assert r[i] == pending[i];
      assert multiset(pending)[r[i]] > 0;
    }
    r
  }
}
