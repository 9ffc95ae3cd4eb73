/** The customer-history page: searching a customer by phone, picking one
    from the list, the selected customer's bookings, the list cap and the
    status badge. */
module Customers {
  import opened Common
  import opened Types
  import opened Text
  import Seqs
  import BookingsList

  /** The first customer whose phone contains the search text, if any. */
  function SearchCustomer(cs: seq<Customer>, text: string): (r: Option<Customer>)
    ensures r.Some? ==> r.value in cs && Contains(r.value.phone, text)
    ensures r.Some? ==> exists k :: (0 <= k < |cs| && cs[k] == r.value
      && forall j :: 0 <= j < k ==> !Contains(cs[j].phone, text))
    ensures r.None? <==> forall j :: 0 <= j < |cs| ==> !Contains(cs[j].phone, text)
  {
    match Seqs.FindFirst(cs, (c: Customer) => Contains(c.phone, text))
    case None => None
    case Some(k) => Some(cs[k])
  }

  /** Every phone contains the empty text, so an empty search picks the first customer. */
  lemma {:induction false} EmptySearchPicksFirst(cs: seq<Customer>)
    requires cs != []
    ensures SearchCustomer(cs, "") == Some(cs[0])
  {
    assert "" <= cs[0].phone;
  }

  /** Searching for a listed customer's own phone finds a customer. */
  lemma {:induction false} SearchOwnPhoneFinds(cs: seq<Customer>, c: Customer)
    requires c in cs
    ensures SearchCustomer(cs, c.phone).Some?
  {
    assert c.phone <= c.phone;
    assert Contains(c.phone, c.phone);
  }

  /** A booking belongs to the selected customer when it carries the same
      phone or its document id is in the customer's history; with nobody
      selected, no booking does. */
  predicate BelongsTo(selected: Option<Customer>, b: Booking)
  {
    selected.Some? && (b.customerPhone == selected.value.phone || b.id in selected.value.bookingHistory)
  }

  /** `getCustomerBookings`: the selected customer's bookings, newest first. */
  function CustomerBookings(bs: seq<Booking>, selected: Option<Customer>): (r: seq<Booking>)
    ensures forall b :: multiset(r)[b] == if BelongsTo(selected, b) then multiset(bs)[b] else 0
    ensures forall i, j :: 0 <= i < j < |r| ==> r[i].createdAt >= r[j].createdAt
    ensures selected.None? ==> r == []
  {
    var mine := Seqs.Filter(bs, (b: Booking) => BelongsTo(selected, b));
    var r := BookingsList.SortBookings(BookingsList.Newest, mine);
    BookingsList.SortBookingsSorted(BookingsList.Newest, mine);
    assert forall i, j :: 0 <= i < j < |r| ==> BookingsList.Precedes(BookingsList.Newest, r[i], r[j]);
    r
  }

  /** A booking is in the history exactly when it is stored and belongs to the customer. */
  lemma {:induction false} CustomerBookingsMember(bs: seq<Booking>, selected: Option<Customer>, b: Booking)
    ensures b in CustomerBookings(bs, selected) <==> b in bs && BelongsTo(selected, b)
  {
    var r := CustomerBookings(bs, selected);
    assert b in r <==> multiset(r)[b] > 0;
    assert b in bs <==> multiset(bs)[b] > 0;
  }

  /** The customers list shows the first twelve customers. */
  function ListedCustomers(cs: seq<Customer>): (r: seq<Customer>)
    ensures |r| <= 12 && r <= cs
    ensures |cs| <= 12 ==> r == cs
    ensures |cs| > 12 ==> |r| == 12
  {
    Seqs.Take(cs, 12)
  }

  /** The customer page's status badge: one colour per status. */
  function CustomerStatusColor(s: Status): (r: string)
    ensures r == "bg-yellow-100 text-yellow-800" <==> s == Pending
    ensures r == "bg-green-100 text-green-800" <==> s == Paid
    ensures r == "bg-blue-100 text-blue-800" <==> s == Completed
    ensures r == "bg-red-100 text-red-800" <==> s == Cancelled
  {
    match s
    case Pending => "bg-yellow-100 text-yellow-800"
    case Paid => "bg-green-100 text-green-800"
    case Completed => "bg-blue-100 text-blue-800"
    case Cancelled => "bg-red-100 text-red-800"
  }

  /** Distinct statuses get distinct badges. */
  lemma {:induction false} CustomerStatusColorsDistinct(s: Status, t: Status)
    requires s != t
    ensures CustomerStatusColor(s) != CustomerStatusColor(t)
  {
  }

  /** The page's state: the search text and the selected customer. */
  class CustomerHistory {
    var searchPhone: string
    var selectedCustomer: Option<Customer>

    constructor ()
      ensures searchPhone == "" && selectedCustomer == None
    {
      searchPhone := "";
      selectedCustomer := None;
    }

    /** Typing in the search box. */
    method SetSearchPhone(text: string)
      modifies this
      ensures searchPhone == text && selectedCustomer == old(selectedCustomer)
    {
      searchPhone := text;
    }

    /** `handleSearch`: selects the first customer whose phone contains the
        search text, or nobody. */
    method HandleSearch(customers: seq<Customer>)
      modifies this
      ensures selectedCustomer == SearchCustomer(customers, searchPhone)
      ensures searchPhone == old(searchPhone)
    {
      selectedCustomer := SearchCustomer(customers, searchPhone);
    }

    /** Clicking a customer in the list selects it and puts its phone in the search box. */
    method SelectCustomer(c: Customer)
      modifies this
      ensures selectedCustomer == Some(c) && searchPhone == c.phone
    {
      selectedCustomer := Some(c);
      searchPhone := c.phone;
    }

  }
}
