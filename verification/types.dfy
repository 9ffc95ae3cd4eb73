/** The records of the application (customers, cars, services, bookings,
    staff). Dates are millisecond ticks; an optional field of the source is
    an `Option`, every other field is always present. */
module Types {
  import opened Common

  /** A booking's status: exactly one of four. */
  datatype Status = Pending | Paid | Completed | Cancelled

  /** A catalogue service's category: exactly one of three. */
  datatype Category = Wash | Repair | Maintenance

  datatype CarDetails = CarDetails(make: string, model: string, year: int, licensePlate: string)

  datatype Service = Service(id: string, name: string, price: nat, category: Category)

  /** `id` is the document id given by the store; `bookingId` is the human
      reference produced by the booking-id generator. */
  datatype Booking = Booking(
    id: string,
    bookingId: string,
    customerId: string,
    customerName: string,
    customerPhone: string,
    carDetails: CarDetails,
    services: seq<string>,
    totalAmount: nat,
    status: Status,
    createdAt: int,
    scheduledDate: int,
    paymentLink: Option<string>,
    notes: Option<string>)

  /** What a caller hands to `createBooking`: a booking without the three
      fields the store fills in (`id`, `bookingId`, `createdAt`). */
  datatype BookingData = BookingData(
    customerId: string,
    customerName: string,
    customerPhone: string,
    carDetails: CarDetails,
    services: seq<string>,
    totalAmount: nat,
    status: Status,
    scheduledDate: int,
    paymentLink: Option<string>,
    notes: Option<string>)

  /** A customer keeps a running total and the document ids of its bookings, oldest first. */
  datatype Customer = Customer(
    id: string,
    name: string,
    phone: string,
    totalSpent: nat,
    bookingHistory: seq<string>,
    createdAt: int)

  datatype Staff = Staff(id: string, pin: string, name: string, role: string, createdAt: int)

  /** The status as the string the application stores and compares. */
  function StatusName(s: Status): string
  {
    match s
    case Pending => "pending"
    case Paid => "paid"
    case Completed => "completed"
    case Cancelled => "cancelled"
  }

  /** Distinct statuses have distinct names, none of them `"all"`. */
  lemma {:induction false} StatusNamesDistinct(s: Status, t: Status)
    ensures StatusName(s) == StatusName(t) <==> s == t
    ensures StatusName(s) != "all"
  {
  }

  /** A booking counts as paid for (receipts, revenue) when it is paid or completed. */
  predicate HasPayment(b: Booking)
  {
    b.status == Paid || b.status == Completed
  }
}
