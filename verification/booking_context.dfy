/** The booking store: the bookings and customers collections, the service
    catalogue, the booking-id generator, booking creation with the customer
    ledger update, status updates, and the two dashboard queries.

    The remote document store is replaced by two in-memory sequences; the
    document ids it would assign, and the clock and random number the
    source reads, are parameters. */
module BookingContext {
  import opened Common
  import opened Types
  import opened Text
  import Seqs

  /** The fixed service catalogue. */
  const DefaultServices: seq<Service> := [
    Service("1", "Basic Car Wash", 25, Wash),
    Service("2", "Premium Car Wash", 45, Wash),
    Service("3", "Interior Cleaning", 35, Wash),
    Service("4", "Oil Change", 60, Maintenance),
    Service("5", "Brake Inspection", 80, Maintenance),
    Service("6", "Tire Rotation", 40, Maintenance),
    Service("7", "Engine Diagnostic", 120, Repair),
    Service("8", "Battery Replacement", 150, Repair),
    Service("9", "AC Repair", 200, Repair)
  ]

  /** One reading of the wall clock: the instant in milliseconds and its
      calendar year, month (1-12) and day of month (1-31). */
  datatype Clock = Clock(now: int, year: int, month: nat, day: nat)

  predicate ValidClock(c: Clock)
  {
    1 <= c.month <= 12 && 1 <= c.day <= 31
  }

  // ---------------------------------------------------------------------
  // Booking reference generator

  /** `BK-YYMMDD-NNN`: the last two characters of the year, the month and
      the day padded to two digits, and a random number below 1000 padded
      to three digits. */
  function GenerateBookingId(clock: Clock, random: nat): string
    requires ValidClock(clock) && random < 1000
  {
    var yy := SliceLast(IntToString(clock.year), 2);
    var mm := PadStart(NatToString(clock.month), 2, '0');
    var dd := PadStart(NatToString(clock.day), 2, '0');
    var nnn := PadStart(NatToString(random), 3, '0');
    "BK-" + yy + mm + dd + "-" + nnn
  }

  /** The reference starts with `BK-`, has `-` before the three-digit
      number, and is 13 characters long except for the years 0-9, whose
      one-digit year leaves it at 12. */
  lemma {:induction false} BookingIdShape(clock: Clock, random: nat)
    requires ValidClock(clock) && random < 1000
    ensures var r := GenerateBookingId(clock, random);
      && |r| == (if clock.year >= 10 || clock.year < 0 then 13 else 12)
      && r[..3] == "BK-" && r[|r| - 4] == '-'
  {
    var yy := SliceLast(IntToString(clock.year), 2);
    var mm := PadStart(NatToString(clock.month), 2, '0');
    var dd := PadStart(NatToString(clock.day), 2, '0');
    var nnn := PadStart(NatToString(random), 3, '0');
    assert |yy| == (if clock.year >= 10 || clock.year < 0 then 2 else 1) by {
      YearWidth(clock.year);
    }
    assert |mm| == 2 && |dd| == 2 && |nnn| == 3 by {
      PaddedWidth(clock.month, 2);
      PaddedWidth(clock.day, 2);
      PaddedWidth(random, 3);
    }
    assert GenerateBookingId(clock, random) == "BK-" + yy + mm + dd + "-" + nnn;
    ReferenceShape(yy, mm, dd, nnn);
  }

  /** A number below `10^width` fills exactly `width` characters once padded. */
  lemma {:induction false} PaddedWidth(n: nat, width: nat)
    requires (width == 2 && n < 100) || (width == 3 && n < 1000)
    ensures |PadStart(NatToString(n), width, '0')| == width
  {
    assert |NatToString(n)| <= width;
  }

  lemma {:induction false} ReferenceShape(yy: string, mm: string, dd: string, nnn: string)
    requires |mm| == 2 && |dd| == 2 && |nnn| == 3
    ensures var r := "BK-" + yy + mm + dd + "-" + nnn;
      |r| == |yy| + 11 && r[..3] == "BK-" && r[|r| - 4] == '-'
  {
  }

  lemma {:induction false} YearWidth(year: int)
    ensures |SliceLast(IntToString(year), 2)| == if year >= 10 || year < 0 then 2 else 1
  {
    if year < 0 {
      assert |IntToString(year)| == 1 + |NatToString(-year)|;
    } else if year >= 10 {
      assert |IntToString(year)| >= 2;
    }
  }

  /** The fields a booking reference encodes. */
  datatype BookingIdFields = BookingIdFields(year2: nat, month: nat, day: nat, number: nat)

  predicate AllDigits(s: string)
  {
    forall i :: 0 <= i < |s| ==> IsDigit(s[i])
  }

  /** Reads a `BK-YYMMDD-NNN` reference back into its fields. */
  function ParseBookingId(s: string): Option<BookingIdFields>
  {
    if |s| == 13 && s[..3] == "BK-" && s[9] == '-'
       && AllDigits(s[3..5]) && AllDigits(s[5..7]) && AllDigits(s[7..9]) && AllDigits(s[10..])
    then
      Some(BookingIdFields(DigitsValue(s[3..5]), DigitsValue(s[5..7]),
                           DigitsValue(s[7..9]), DigitsValue(s[10..])))
    else None
  }

  /** Zeros in front of a digit string do not change its value. */
  lemma {:induction false} LeadingZeros(z: nat, s: string)
    requires AllDigits(s)
    ensures AllDigits(seq(z, _ => '0') + s)
    ensures DigitsValue(seq(z, _ => '0') + s) == DigitsValue(s)
  {
    var t := seq(z, _ => '0') + s;
    if s == [] {
      assert t == seq(z, _ => '0');
      if z > 0 {
        assert t[..|t| - 1] == seq(z - 1, _ => '0');
        LeadingZeros(z - 1, s);
        assert seq(z - 1, _ => '0') + s == seq(z - 1, _ => '0');
      }
    } else {
      assert t[..|t| - 1] == seq(z, _ => '0') + s[..|s| - 1];
      LeadingZeros(z, s[..|s| - 1]);
    }
  }

  /** A number below `10^width` written with `padStart(width, '0')` reads back as itself. */
  lemma {:induction false} PaddedValue(n: nat, width: nat)
    ensures AllDigits(PadStart(NatToString(n), width, '0'))
    ensures DigitsValue(PadStart(NatToString(n), width, '0')) == n
  {
    var s := NatToString(n);
    NatToStringValue(n);
    if |s| < width {
      LeadingZeros(width - |s|, s);
    }
  }

  /** The last two digits of a year from 10 on read back as the year modulo 100. */
  lemma {:induction false} LastTwoDigits(n: nat)
    requires n >= 10
    ensures |SliceLast(NatToString(n), 2)| == 2
    ensures AllDigits(SliceLast(NatToString(n), 2))
    ensures DigitsValue(SliceLast(NatToString(n), 2)) == n % 100
  {
    var hi, lo := DigitChar((n / 10) % 10), DigitChar(n % 10);
    LastTwoChars(n);
    TwoDigitsValue(hi, lo);
    ModHundred(n);
  }

  lemma {:induction false} LastTwoChars(n: nat)
    requires n >= 10
    ensures SliceLast(NatToString(n), 2) == [DigitChar((n / 10) % 10), DigitChar(n % 10)]
  {
    var front := NatToString(n / 10);
    assert NatToString(n) == front + [DigitChar(n % 10)];
    LastTwoOf(front, DigitChar(n % 10));
  }

  lemma {:induction false} LastTwoOf(front: string, d: char)
    requires |front| >= 1
    ensures SliceLast(front + [d], 2) == [front[|front| - 1], d]
  {
    var s := front + [d];
    assert s[|s| - 2] == front[|front| - 1];
  }

  lemma {:induction false} TwoDigitsValue(hi: char, lo: char)
    requires IsDigit(hi) && IsDigit(lo)
    ensures DigitsValue([hi, lo]) == DigitValue(hi) * 10 + DigitValue(lo)
  {
    assert DigitsValue([hi]) == DigitValue(hi) by {
      assert [hi][..0] == [];
    }
    assert DigitsValue([hi, lo]) == DigitsValue([hi]) * 10 + DigitValue(lo) by {
      assert [hi, lo][..1] == [hi];
    }
  }

  /** Where each field sits in a 13-character reference. */
  lemma {:induction false} ReferenceFields(yy: string, mm: string, dd: string, nnn: string)
    requires |yy| == 2 && |mm| == 2 && |dd| == 2 && |nnn| == 3
    ensures var r := "BK-" + yy + mm + dd + "-" + nnn;
      |r| == 13 && r[..3] == "BK-" && r[9] == '-'
      && r[3..5] == yy && r[5..7] == mm && r[7..9] == dd && r[10..] == nnn
  {
  }

  lemma {:induction false} ModHundred(n: nat)
    ensures n % 100 == ((n / 10) % 10) * 10 + n % 10
  {
    var q := n / 10;
    var r0, r1, q2 := n % 10, q % 10, q / 10;
    assert n == 10 * q + r0;
    assert q == 10 * q2 + r1;
    ModByHundred(n, q2, 10 * r1 + r0);
  }

  lemma {:induction false} ModByHundred(n: int, q: int, r: int)
    requires n == 100 * q + r && 0 <= r < 100
    ensures n % 100 == r
  {
  }

  /** Every reference the generator produces (for a year from 10 on) reads
      back as the year modulo 100, the month, the day and the random number. */
  lemma {:induction false} GenerateParseRoundTrip(clock: Clock, random: nat)
    requires ValidClock(clock) && random < 1000 && clock.year >= 10
    ensures ParseBookingId(GenerateBookingId(clock, random))
         == Some(BookingIdFields(clock.year % 100, clock.month, clock.day, random))
  {
    var yy := SliceLast(IntToString(clock.year), 2);
    var mm := PadStart(NatToString(clock.month), 2, '0');
    var dd := PadStart(NatToString(clock.day), 2, '0');
    var nnn := PadStart(NatToString(random), 3, '0');
    LastTwoDigits(clock.year);
    PaddedValue(clock.month, 2);
    PaddedValue(clock.day, 2);
    PaddedValue(random, 3);
    assert |yy| == 2 && |mm| == 2 && |dd| == 2 && |nnn| == 3;
    assert GenerateBookingId(clock, random) == "BK-" + yy + mm + dd + "-" + nnn;
    ReferenceFields(yy, mm, dd, nnn);
  }

  // ---------------------------------------------------------------------
  // Ledger helpers

  /** The document ids present in a bookings collection. */
  function BookingIds(bs: seq<Booking>): set<string>
  {
    set k | 0 <= k < |bs| :: bs[k].id
  }

  /** The amount of the booking with document id `id`, or 0 when there is none. */
  function AmountOf(bs: seq<Booking>, id: string): nat
  {
    match Seqs.FindFirst(bs, (b: Booking) => b.id == id)
    case Some(k) => bs[k].totalAmount
    case None => 0
  }

  /** The sum of the amounts of the bookings a history names. */
  function HistoryTotal(bs: seq<Booking>, history: seq<string>): nat
  {
    if history == [] then 0
    else HistoryTotal(bs, history[..|history| - 1]) + AmountOf(bs, history[|history| - 1])
  }

  /** A customer after one more booking of `amount` with document id `id`. */
  function Credit(c: Customer, amount: nat, id: string): Customer
  {
    c.(totalSpent := c.totalSpent + amount, bookingHistory := c.bookingHistory + [id])
  }

  /** `customers.find(c => c.phone === phone)`, as a position. */
  function FindCustomerByPhone(cs: seq<Customer>, phone: string): (r: Option<nat>)
    ensures r.Some? ==> r.value < |cs| && cs[r.value].phone == phone
    ensures r.Some? ==> forall j :: 0 <= j < r.value ==> cs[j].phone != phone
    ensures r.None? <==> forall j :: 0 <= j < |cs| ==> cs[j].phone != phone
  {
    Seqs.FindFirst(cs, (c: Customer) => c.phone == phone)
  }

  /** The record `createBooking` stores: the caller's fields unchanged, plus
      the document id, the generated reference and the creation time. */
  function NewBooking(data: BookingData, docId: string, bookingId: string, createdAt: int): (b: Booking)
    ensures b.id == docId && b.bookingId == bookingId && b.createdAt == createdAt
    ensures b.customerId == data.customerId && b.customerName == data.customerName
    ensures b.customerPhone == data.customerPhone && b.carDetails == data.carDetails
    ensures b.services == data.services && b.totalAmount == data.totalAmount
    ensures b.status == data.status && b.scheduledDate == data.scheduledDate
    ensures b.paymentLink == data.paymentLink && b.notes == data.notes
  {
    Booking(docId, bookingId, data.customerId, data.customerName, data.customerPhone,
            data.carDetails, data.services, data.totalAmount, data.status, createdAt,
            data.scheduledDate, data.paymentLink, data.notes)
  }

  lemma {:induction false} BookingIdsAppend(bs: seq<Booking>, b: Booking)
    ensures BookingIds(bs + [b]) == BookingIds(bs) + {b.id}
  {
    var t := bs + [b];
    forall x | x in BookingIds(t) ensures x in BookingIds(bs) + {b.id} {
      var k :| 0 <= k < |t| && t[k].id == x;
      if k < |bs| { assert bs[k].id == x; }
    }
    forall x | x in BookingIds(bs) + {b.id} ensures x in BookingIds(t) {
      if x == b.id {
        assert t[|bs|].id == x;
      } else {
        var k :| 0 <= k < |bs| && bs[k].id == x;
        assert t[k].id == x;
      }
    }
  }

  /** Appending a booking does not change the amount looked up for another id. */
  lemma {:induction false} AmountOfAppendOther(bs: seq<Booking>, b: Booking, id: string)
    requires id != b.id
    ensures AmountOf(bs + [b], id) == AmountOf(bs, id)
  {
    var p := (x: Booking) => x.id == id;
    var t := bs + [b];
    var r, s := Seqs.FindFirst(t, p), Seqs.FindFirst(bs, p);
    match s
    case Some(k) =>
      assert p(t[k]);
      assert r.Some? && r.value == k;
    case None =>
      forall j | 0 <= j < |t| ensures !p(t[j]) {
        if j < |bs| { assert t[j] == bs[j]; }
      }
  }

  /** Appending a booking with a fresh id makes that id look up its own amount. */
  lemma {:induction false} AmountOfAppendNew(bs: seq<Booking>, b: Booking)
    requires b.id !in BookingIds(bs)
    ensures AmountOf(bs + [b], b.id) == b.totalAmount
  {
    var p := (x: Booking) => x.id == b.id;
    var t := bs + [b];
    forall j | 0 <= j < |bs| ensures !p(t[j]) {
      assert t[j] == bs[j];
      assert bs[j].id in BookingIds(bs);
    }
    assert p(t[|bs|]);
  }

  /** A history that does not name the appended booking keeps its total. */
  lemma {:induction false} HistoryTotalAppend(bs: seq<Booking>, b: Booking, history: seq<string>)
    requires b.id !in history
    ensures HistoryTotal(bs + [b], history) == HistoryTotal(bs, history)
  {
    if history != [] {
      var last := history[|history| - 1];
      assert last in history;
      AmountOfAppendOther(bs, b, last);
      HistoryTotalAppend(bs, b, history[..|history| - 1]);
    }
  }

  /** Changing fields other than ids and amounts keeps every history total. */
  lemma {:induction false} HistoryTotalSameAmounts(bs: seq<Booking>, bs': seq<Booking>, history: seq<string>)
    requires |bs| == |bs'|
    requires forall k :: 0 <= k < |bs| ==> bs[k].id == bs'[k].id && bs[k].totalAmount == bs'[k].totalAmount
    ensures HistoryTotal(bs', history) == HistoryTotal(bs, history)
  {
    if history != [] {
      var id := history[|history| - 1];
      var p := (x: Booking) => x.id == id;
      var r, r' := Seqs.FindFirst(bs, p), Seqs.FindFirst(bs', p);
      assert forall k :: 0 <= k < |bs| ==> (p(bs[k]) <==> p(bs'[k]));
      assert r == r';
      HistoryTotalSameAmounts(bs, bs', history[..|history| - 1]);
    }
  }

  lemma {:induction false} HistoryTotalExtend(bs: seq<Booking>, history: seq<string>, id: string)
    ensures HistoryTotal(bs, history + [id]) == HistoryTotal(bs, history) + AmountOf(bs, id)
  {
    assert (history + [id])[..|history|] == history;
  }

  // ---------------------------------------------------------------------
  // The ledger invariant

  /** Document ids of bookings are unique. */
  ghost predicate UniqueBookingIds(bs: seq<Booking>)
  {
    forall i, j :: 0 <= i < j < |bs| ==> bs[i].id != bs[j].id
  }

  /** Customer document ids and customer phones are unique. */
  ghost predicate UniqueCustomers(cs: seq<Customer>)
  {
    forall i, j :: 0 <= i < j < |cs| ==> cs[i].id != cs[j].id && cs[i].phone != cs[j].phone
  }

  /** Every history names stored bookings only. */
  ghost predicate HistoriesStored(bs: seq<Booking>, cs: seq<Customer>)
  {
    forall i :: 0 <= i < |cs| ==> forall h :: h in cs[i].bookingHistory ==> h in BookingIds(bs)
  }

  /** Every customer's `totalSpent` is the sum of the amounts of the bookings in its history. */
  ghost predicate TotalsMatch(bs: seq<Booking>, cs: seq<Customer>)
  {
    forall i :: 0 <= i < |cs| ==> cs[i].totalSpent == HistoryTotal(bs, cs[i].bookingHistory)
  }

  ghost predicate Ledger(bs: seq<Booking>, cs: seq<Customer>)
  {
    UniqueBookingIds(bs) && UniqueCustomers(cs) && HistoriesStored(bs, cs) && TotalsMatch(bs, cs)
  }

  /** The customers after a booking of `data` stored under `docId`: the first
      customer with the booking's phone is credited with the amount and the
      id; when there is none, a customer is added whose only booking it is. */
  function RecordBooking(cs: seq<Customer>, data: BookingData, docId: string, customerDocId: string, now: int)
    : (r: seq<Customer>)
    ensures FindCustomerByPhone(cs, data.customerPhone).Some? ==>
      var i := FindCustomerByPhone(cs, data.customerPhone).value;
      && |r| == |cs|
      && r[i].id == cs[i].id && r[i].name == cs[i].name && r[i].phone == cs[i].phone
      && r[i].createdAt == cs[i].createdAt
      && r[i].totalSpent == cs[i].totalSpent + data.totalAmount
      && r[i].bookingHistory == cs[i].bookingHistory + [docId]
      && forall j :: 0 <= j < |cs| && j != i ==> r[j] == cs[j]
    ensures FindCustomerByPhone(cs, data.customerPhone).None? ==>
      && |r| == |cs| + 1
      && r[..|cs|] == cs
      && r[|cs|] == Customer(customerDocId, data.customerName, data.customerPhone,
                             data.totalAmount, [docId], now)
  {
    match FindCustomerByPhone(cs, data.customerPhone)
    case Some(i) => cs[i := Credit(cs[i], data.totalAmount, docId)]
    case None => cs + [Customer(customerDocId, data.customerName, data.customerPhone,
                                data.totalAmount, [docId], now)]
  }

  /** After recording, exactly one customer has the booking's phone, and the
      last entry of its history is the new booking's document id. */
  lemma {:induction false} RecordBookingOwner(cs: seq<Customer>, data: BookingData, docId: string, customerDocId: string, now: int)
    requires UniqueCustomers(cs)
    ensures var r := RecordBooking(cs, data, docId, customerDocId, now);
      exists i :: 0 <= i < |r| && r[i].phone == data.customerPhone
        && |r[i].bookingHistory| > 0 && r[i].bookingHistory[|r[i].bookingHistory| - 1] == docId
        && forall j :: 0 <= j < |r| && j != i ==> r[j].phone != data.customerPhone
  {
    var r := RecordBooking(cs, data, docId, customerDocId, now);
    match FindCustomerByPhone(cs, data.customerPhone)
    case Some(i) =>
      assert r[i].phone == data.customerPhone;
    case None =>
      assert r[|cs|].phone == data.customerPhone;
      assert forall j :: 0 <= j < |cs| ==> r[j] == cs[j];
  }

  /** Creating a booking under fresh document ids keeps the ledger invariant. */
  lemma {:induction false} CreateKeepsLedger(bs: seq<Booking>, cs: seq<Customer>, data: BookingData, docId: string,
                                             reference: string, customerDocId: string, now: int)
    requires Ledger(bs, cs)
    requires docId !in BookingIds(bs)
    requires forall i :: 0 <= i < |cs| ==> cs[i].id != customerDocId
    ensures Ledger(bs + [NewBooking(data, docId, reference, now)], RecordBooking(cs, data, docId, customerDocId, now))
  {
    var b := NewBooking(data, docId, reference, now);
    var bs' := bs + [b];
    BookingIdsAppend(bs, b);
    assert UniqueBookingIds(bs') by {
      forall i | 0 <= i < |bs| ensures bs'[i].id != b.id {
        assert bs[i].id in BookingIds(bs);
      }
    }
    TotalsAfterAppend(bs, cs, b);
    AmountOfAppendNew(bs, b);
    match FindCustomerByPhone(cs, data.customerPhone)
    case Some(i) =>
      CreditKeepsLedger(bs', cs, i, data, docId, customerDocId, now);
    case None =>
      NewCustomerKeepsLedger(bs', cs, data, docId, customerDocId, now);
  }

  /** A stored booking with a fresh id leaves every existing total unchanged. */
  lemma {:induction false} TotalsAfterAppend(bs: seq<Booking>, cs: seq<Customer>, b: Booking)
    requires HistoriesStored(bs, cs) && TotalsMatch(bs, cs)
    requires b.id !in BookingIds(bs)
    ensures TotalsMatch(bs + [b], cs)
  {
    forall i | 0 <= i < |cs|
      ensures cs[i].totalSpent == HistoryTotal(bs + [b], cs[i].bookingHistory)
    {
      assert b.id !in cs[i].bookingHistory;
      HistoryTotalAppend(bs, b, cs[i].bookingHistory);
    }
  }

  lemma {:induction false} CreditKeepsLedger(bs: seq<Booking>, cs: seq<Customer>, i: nat, data: BookingData,
                          docId: string, customerDocId: string, now: int)
    requires |bs| > 0 && bs[|bs| - 1].id == docId
    requires UniqueCustomers(cs) && HistoriesStored(bs[..|bs| - 1], cs) && TotalsMatch(bs, cs)
    requires BookingIds(bs) == BookingIds(bs[..|bs| - 1]) + {docId}
    requires AmountOf(bs, docId) == data.totalAmount
    requires FindCustomerByPhone(cs, data.customerPhone) == Some(i)
    ensures var cs' := RecordBooking(cs, data, docId, customerDocId, now);
      UniqueCustomers(cs') && HistoriesStored(bs, cs') && TotalsMatch(bs, cs')
  {
    var cs' := RecordBooking(cs, data, docId, customerDocId, now);
    assert |cs'| == |cs| && cs'[i] == Credit(cs[i], data.totalAmount, docId);
    assert forall j :: 0 <= j < |cs| && j != i ==> cs'[j] == cs[j];
    assert UniqueCustomers(cs') by {
      forall j, k | 0 <= j < k < |cs'| ensures cs'[j].id != cs'[k].id && cs'[j].phone != cs'[k].phone {
        assert cs'[j].id == cs[j].id && cs'[j].phone == cs[j].phone;
        assert cs'[k].id == cs[k].id && cs'[k].phone == cs[k].phone;
      }
    }
    assert HistoriesStored(bs, cs') by {
      forall j, h | 0 <= j < |cs'| && h in cs'[j].bookingHistory ensures h in BookingIds(bs) {
        if h != docId {
          assert h in cs[j].bookingHistory;
          assert h in BookingIds(bs[..|bs| - 1]);
        }
      }
    }
    assert TotalsMatch(bs, cs') by {
      HistoryTotalExtend(bs, cs[i].bookingHistory, docId);
    }
  }

  lemma {:induction false} NewCustomerKeepsLedger(bs: seq<Booking>, cs: seq<Customer>, data: BookingData,
                               docId: string, customerDocId: string, now: int)
    requires |bs| > 0 && bs[|bs| - 1].id == docId
    requires UniqueCustomers(cs) && HistoriesStored(bs[..|bs| - 1], cs) && TotalsMatch(bs, cs)
    requires BookingIds(bs) == BookingIds(bs[..|bs| - 1]) + {docId}
    requires AmountOf(bs, docId) == data.totalAmount
    requires forall i :: 0 <= i < |cs| ==> cs[i].id != customerDocId
    requires FindCustomerByPhone(cs, data.customerPhone).None?
    ensures var cs' := RecordBooking(cs, data, docId, customerDocId, now);
      UniqueCustomers(cs') && HistoriesStored(bs, cs') && TotalsMatch(bs, cs')
  {
    var c := Customer(customerDocId, data.customerName, data.customerPhone, data.totalAmount, [docId], now);
    var cs' := RecordBooking(cs, data, docId, customerDocId, now);
    assert cs' == cs + [c];
    assert UniqueCustomers(cs') by {
      forall i, j | 0 <= i < j < |cs'| ensures cs'[i].id != cs'[j].id && cs'[i].phone != cs'[j].phone {
        if j == |cs| {
          assert cs'[i] == cs[i];
        }
      }
    }
    assert HistoriesStored(bs, cs') by {
      forall i, h | 0 <= i < |cs'| && h in cs'[i].bookingHistory ensures h in BookingIds(bs) {
        if i < |cs| {
          assert h in BookingIds(bs[..|bs| - 1]);
        }
      }
    }
    assert TotalsMatch(bs, cs') by {
      HistoryTotalExtend(bs, [], docId);
      assert [] + [docId] == [docId];
    }
  }

  /** Changing only statuses keeps the ledger invariant. */
  lemma {:induction false} LedgerAfterStatusChange(bs: seq<Booking>, bs': seq<Booking>, cs: seq<Customer>)
    requires Ledger(bs, cs)
    requires |bs| == |bs'|
    requires forall k :: 0 <= k < |bs| ==> bs[k].id == bs'[k].id && bs[k].totalAmount == bs'[k].totalAmount
    ensures Ledger(bs', cs)
  {
    assert BookingIds(bs') == BookingIds(bs) by {
      forall x | x in BookingIds(bs') ensures x in BookingIds(bs) {
        var k :| 0 <= k < |bs'| && bs'[k].id == x;
        assert bs[k].id == x;
      }
      forall x | x in BookingIds(bs) ensures x in BookingIds(bs') {
        var k :| 0 <= k < |bs| && bs[k].id == x;
        assert bs'[k].id == x;
      }
    }
    forall i | 0 <= i < |cs|
      ensures cs[i].totalSpent == HistoryTotal(bs', cs[i].bookingHistory)
    {
      HistoryTotalSameAmounts(bs, bs', cs[i].bookingHistory);
    }
  }

  // ---------------------------------------------------------------------
  // Queries

  /** The calendar day of an instant (UTC days since the epoch). */
  function DayOf(t: int): int
  {
    t / 86_400_000
  }

  /** `getTodayBookings`: the bookings scheduled on the same calendar day as `now`, in order. */
  function TodayBookings(bs: seq<Booking>, now: int): (r: seq<Booking>)
    ensures Seqs.IsSubsequence(r, bs)
    ensures forall b :: multiset(r)[b] == if DayOf(b.scheduledDate) == DayOf(now) then multiset(bs)[b] else 0
  {
    Seqs.Filter(bs, (b: Booking) => DayOf(b.scheduledDate) == DayOf(now))
  }

  /** `getPendingPayments`: the bookings whose status is pending, in order. */
  function PendingPayments(bs: seq<Booking>): (r: seq<Booking>)
    ensures Seqs.IsSubsequence(r, bs)
    ensures forall b :: multiset(r)[b] == if b.status == Pending then multiset(bs)[b] else 0
  {
    Seqs.Filter(bs, (b: Booking) => b.status == Pending)
  }

  // ---------------------------------------------------------------------
  // The store

  class BookingStore {
    var bookings: seq<Booking>
    var customers: seq<Customer>
    /** The service catalogue the store hands out; it is never updated. */
    const services: seq<Service>

    ghost predicate Valid()
      reads this
    {
      Ledger(bookings, customers)
    }

    /** No stored customer has document id `id`. */
    predicate FreshCustomerId(id: string)
      reads this
    {
      forall i :: 0 <= i < |customers| ==> customers[i].id != id
    }

    constructor ()
      ensures Valid()
      ensures bookings == [] && customers == [] && services == DefaultServices
    {
      bookings := [];
      customers := [];
      services := DefaultServices;
    }

    /** `createBooking`: stores the booking under the fresh document id
        `docId` with a generated reference, then credits the customer with
        the same phone or adds one (document id `customerDocId`). Returns
        `docId`. */
    method CreateBooking(data: BookingData, clock: Clock, random: nat, docId: string, customerDocId: string)
      returns (id: string)
      requires Valid()
      requires ValidClock(clock) && random < 1000
      requires docId !in BookingIds(bookings)
      requires FreshCustomerId(customerDocId)
      modifies this
      ensures Valid()
      ensures id == docId
      ensures bookings == old(bookings) + [NewBooking(data, docId, GenerateBookingId(clock, random), clock.now)]
      ensures customers == RecordBooking(old(customers), data, docId, customerDocId, clock.now)
    {
      var reference := GenerateBookingId(clock, random);
      CreateKeepsLedger(bookings, customers, data, docId, reference, customerDocId, clock.now);
      bookings := bookings + [NewBooking(data, docId, reference, clock.now)];
      customers := RecordBooking(customers, data, docId, customerDocId, clock.now);
      id := docId;
    }

    /** `updateBookingStatus`: rewrites the status of the booking with
        document id `docId`; fails without change when there is none. */
    method UpdateBookingStatus(docId: string, status: Status) returns (ok: bool)
      requires Valid()
      modifies this
      ensures Valid()
      ensures customers == old(customers)
      ensures ok <==> docId in BookingIds(old(bookings))
      ensures |bookings| == |old(bookings)|
      ensures forall k :: 0 <= k < |bookings| ==>
        bookings[k] == if old(bookings)[k].id == docId then old(bookings)[k].(status := status) else old(bookings)[k]
    {
      match Seqs.FindFirst(bookings, (b: Booking) => b.id == docId)
      case None =>
        ok := false;
      case Some(k) =>
        var updated := bookings[k := bookings[k].(status := status)];
        LedgerAfterStatusChange(bookings, updated, customers);
        bookings := updated;
        ok := true;
    }
  }
}
