/** The receipts page: which bookings have receipts, the receipt search,
    the HTML receipt document, its download name and the status badge. */
module Receipts {
  import opened Common
  import opened Types
  import opened Text
  import Seqs
  import BookingsList

  // ---------------------------------------------------------------------
  // Which bookings are listed

  /** `paidBookings`: the bookings that were paid for, in their original order. */
  function PaidBookings(bs: seq<Booking>): (r: seq<Booking>)
    ensures Seqs.IsSubsequence(r, bs)
    ensures forall b :: multiset(r)[b] == if HasPayment(b) then multiset(bs)[b] else 0
  {
    Seqs.Filter(bs, HasPayment)
  }

  /** A booking has a receipt exactly when it is stored and paid or completed. */
  lemma {:induction false} PaidMember(bs: seq<Booking>, b: Booking)
    ensures b in PaidBookings(bs) <==> b in bs && (b.status == Paid || b.status == Completed)
  {
    Seqs.FilterMember(bs, HasPayment, b);
  }

  /** The receipt search: the paid bookings that match the search box. */
  function ReceiptSearch(bs: seq<Booking>, term: string): (r: seq<Booking>)
    ensures Seqs.IsSubsequence(r, PaidBookings(bs))
    ensures forall b :: multiset(r)[b] == (if BookingsList.MatchesSearch(b, term)
      then multiset(PaidBookings(bs))[b] else 0)
  {
    Seqs.Filter(PaidBookings(bs), (b: Booking) => BookingsList.MatchesSearch(b, term))
  }

  /** The receipt search applies the bookings list's search rule to the paid bookings. */
  lemma {:induction false} ReceiptSearchSameRule(bs: seq<Booking>, term: string)
    ensures ReceiptSearch(bs, term) == BookingsList.FilteredBookings(PaidBookings(bs), term, "all")
  {
    Seqs.FilterSamePredicate(PaidBookings(bs),
      (b: Booking) => BookingsList.MatchesSearch(b, term),
      (b: Booking) => BookingsList.Shown(b, term, "all"));
  }

  // ---------------------------------------------------------------------
  // Workshop details

  datatype Workshop = Workshop(name: string, phone: string, address: string)

  const DefaultWorkshopName: string := "AutoCare Workshop"
  const DefaultWorkshopPhone: string := "+1234567890"
  const DefaultWorkshopAddress: string := "123 Main St, City, State 12345"

  /** The workshop shown on a receipt, from the three deployment settings. */
  function WorkshopDetails(name: Option<string>, phone: Option<string>, address: Option<string>): (w: Workshop)
    ensures w.name == OrDefault(name, DefaultWorkshopName)
    ensures w.phone == OrDefault(phone, DefaultWorkshopPhone)
    ensures w.address == OrDefault(address, DefaultWorkshopAddress)
    ensures w.name != "" && w.phone != "" && w.address != ""
  {
    Workshop(OrDefault(name, DefaultWorkshopName), OrDefault(phone, DefaultWorkshopPhone),
             OrDefault(address, DefaultWorkshopAddress))
  }

  /** With nothing configured the receipt names the default workshop. */
  lemma {:induction false} UnconfiguredWorkshop()
    ensures WorkshopDetails(None, None, None)
      == Workshop("AutoCare Workshop", "+1234567890", "123 Main St, City, State 12345")
  {
  }

  // ---------------------------------------------------------------------
  // The receipt document

  /** The table row of one service; the price column shows `-`. */
  function ServiceRow(service: string): string
  {
    "<tr><td>" + service + "</td><td>-</td></tr>"
  }

  /** `services.map(row).join('')`. */
  function ServiceRows(services: seq<string>): string
  {
    if services == [] then "" else ServiceRow(services[0]) + ServiceRows(services[1..])
  }

  lemma {:induction false} ServiceRowsAppend(a: seq<string>, b: seq<string>)
    ensures ServiceRows(a + b) == ServiceRows(a) + ServiceRows(b)
  {
    if a == [] {
      assert a + b == b;
    } else {
      assert (a + b)[1..] == a[1..] + b;
      ServiceRowsAppend(a[1..], b);
    }
  }

  /** The rows are the services' rows in booking order: the `i`-th row sits
      between the rows of the services before and after it. */
  lemma {:induction false} ServiceRowsSplit(services: seq<string>, i: nat)
    requires i < |services|
    ensures ServiceRows(services)
      == ServiceRows(services[..i]) + ServiceRow(services[i]) + ServiceRows(services[i + 1..])
  {
    var before, x, after := services[..i], services[i], services[i + 1..];
    Seqs.SplitAt(services, i);
    ServiceRowsAppend(before, [x] + after);
    ServiceRowsCons(x, after);
  }

  lemma {:induction false} ServiceRowsCons(x: string, rest: seq<string>)
    ensures ServiceRows([x] + rest) == ServiceRow(x) + ServiceRows(rest)
  {
    assert ([x] + rest)[1..] == rest;
  }

  /** The notes block, present only for non-empty notes. */
  function NotesSection(notes: Option<string>): (r: string)
    ensures r != "" <==> notes.Some? && notes.value != ""
    ensures r != "" ==> Contains(r, notes.value)
  {
    if notes.Some? && notes.value != "" then
      var pre := "<div class=\"section\"><h4>Notes</h4><p>";
      var post := "</p></div>";
      ContainsSpliced(pre, notes.value, post);
      pre + notes.value + post
    else ""
  }

  const TotalPrefix: string := "Total Amount: $"

  /** The total line. */
  function TotalLine(amount: nat): (r: string)
    ensures TotalPrefix < r
  {
    TotalPrefix + IntToString(amount)
  }

  /** The amount printed after the dollar sign reads back as the booking's total. */
  lemma {:induction false} TotalLineReadsBack(amount: nat)
    ensures |TotalLine(amount)| > |TotalPrefix|
    ensures ParseInt(TotalLine(amount)[|TotalPrefix|..]) == Some(amount as int)
  {
    assert TotalLine(amount)[|TotalPrefix|..] == IntToString(amount);
    ParseIntOfIntToString(amount);
  }

  /** The receipt before the service rows. `created` and `scheduled` are the
      two dates already formatted. */
  function ReceiptHead(b: Booking, w: Workshop, created: string, scheduled: string): string
  {
    "<!DOCTYPE html>\n<html>\n<head>\n<title>Receipt - " + b.bookingId + "</title>\n"
    + ReceiptStyle
    + "</head>\n<body>\n<div class=\"receipt\">\n<div class=\"header\">\n"
    + "<h2>" + w.name + "</h2>\n<p>" + w.address + "</p>\n<p>Phone: " + w.phone + "</p>\n</div>\n"
    + "<div class=\"section\">\n<h3>Receipt #" + b.bookingId + "</h3>\n"
    + "<p><strong>Date:</strong> " + created + "</p>\n"
    + "<p><strong>Service Date:</strong> " + scheduled + "</p>\n</div>\n"
    + "<div class=\"section\">\n<h4>Customer Information</h4>\n"
    + "<p><strong>Name:</strong> " + b.customerName + "</p>\n"
    + "<p><strong>Phone:</strong> " + b.customerPhone + "</p>\n</div>\n"
    + "<div class=\"section\">\n<h4>Vehicle Information</h4>\n"
    + "<p><strong>Vehicle:</strong> " + IntToString(b.carDetails.year) + " " + b.carDetails.make
    + " " + b.carDetails.model + "</p>\n"
    + "<p><strong>License Plate:</strong> " + b.carDetails.licensePlate + "</p>\n</div>\n"
    + "<div class=\"section\">\n<h4>Services Provided</h4>\n<table>\n"
    + "<tr><th>Service</th><th>Price</th></tr>\n"
  }

  const ReceiptStyle: string :=
    "<style>\n"
    + "body { font-family: Arial, sans-serif; margin: 20px; }\n"
    + ".receipt { max-width: 600px; margin: 0 auto; border: 1px solid #ddd; padding: 20px; }\n"
    + ".header { text-align: center; border-bottom: 2px solid #333; padding-bottom: 10px; margin-bottom: 20px; }\n"
    + ".section { margin: 15px 0; }\n"
    + ".total { font-size: 18px; font-weight: bold; background: #f5f5f5; padding: 10px; }\n"
    + "table { width: 100%; border-collapse: collapse; }\n"
    + "th, td { padding: 8px; text-align: left; border-bottom: 1px solid #ddd; }\n"
    + "</style>\n"

  const TableClose: string := "</table>\n</div>\n"

  /** The total block around the total line. */
  function TotalBlock(amount: nat): string
  {
    "\n<div class=\"total\">\n" + TotalLine(amount) + "\n</div>\n"
  }

  /** The thanks line, naming the workshop again. */
  function Thanks(w: Workshop): string
  {
    "Thank you for choosing " + w.name + "!"
  }

  function Closing(w: Workshop): string
  {
    "<div class=\"section\" style=\"text-align: center; margin-top: 30px;\">\n<p>"
    + Thanks(w)
    + "</p>\n<p>We appreciate your business.</p>\n</div>\n</div>\n</body>\n</html>\n"
  }

  /** `generateReceiptContent`: the head, then the body. */
  function ReceiptContent(b: Booking, w: Workshop, created: string, scheduled: string): string
  {
    ReceiptHead(b, w, created, scheduled) + ReceiptBody(b, w)
  }

  /** The receipt from the service rows on: one row per service, then the
      notes, the total and the closing. */
  function ReceiptBody(b: Booking, w: Workshop): string
  {
    ServiceRows(b.services) + TableClose + NotesSection(b.notes) + TotalBlock(b.totalAmount) + Closing(w)
  }

  /** Every service of the booking has its row on the receipt. */
  lemma {:induction false} ReceiptListsServices(b: Booking, w: Workshop, created: string, scheduled: string, i: nat)
    requires i < |b.services|
    ensures Contains(ReceiptContent(b, w, created, scheduled), ServiceRow(b.services[i]))
  {
    BodyListsServices(b, w, i);
    ContainsAfter(ReceiptHead(b, w, created, scheduled), ReceiptBody(b, w), ServiceRow(b.services[i]));
  }

  lemma {:induction false} BodyListsServices(b: Booking, w: Workshop, i: nat)
    requires i < |b.services|
    ensures Contains(ReceiptBody(b, w), ServiceRow(b.services[i]))
  {
    var before := ServiceRows(b.services[..i]);
    var row := ServiceRow(b.services[i]);
    var after := ServiceRows(b.services[i + 1..]);
    var notes, total, closing := NotesSection(b.notes), TotalBlock(b.totalAmount), Closing(w);
    ServiceRowsSplit(b.services, i);
    RegroupRow(before, row, after, TableClose, notes, total, closing);
    ContainsSpliced(before, row, after + TableClose + notes + total + closing);
  }

  /** The receipt carries the total line of the booking's amount. */
  lemma {:induction false} ReceiptShowsTotal(b: Booking, w: Workshop, created: string, scheduled: string)
    ensures Contains(ReceiptContent(b, w, created, scheduled), TotalLine(b.totalAmount))
  {
    BodyShowsTotal(b, w);
    ContainsAfter(ReceiptHead(b, w, created, scheduled), ReceiptBody(b, w), TotalLine(b.totalAmount));
  }

  lemma {:induction false} BodyShowsTotal(b: Booking, w: Workshop)
    ensures Contains(ReceiptBody(b, w), TotalLine(b.totalAmount))
  {
    var rows := ServiceRows(b.services);
    var notes, line, closing := NotesSection(b.notes), TotalLine(b.totalAmount), Closing(w);
    var open, close := "\n<div class=\"total\">\n", "\n</div>\n";
    RegroupInner(rows + TableClose + notes, open, line, close, closing);
    ContainsSpliced(rows + TableClose + notes + open, line, close + closing);
  }

  /** The notes block (non-empty exactly for non-empty notes) is on the receipt. */
  lemma {:induction false} ReceiptShowsNotes(b: Booking, w: Workshop, created: string, scheduled: string)
    ensures Contains(ReceiptContent(b, w, created, scheduled), NotesSection(b.notes))
  {
    BodyShowsNotes(b, w);
    ContainsAfter(ReceiptHead(b, w, created, scheduled), ReceiptBody(b, w), NotesSection(b.notes));
  }

  lemma {:induction false} BodyShowsNotes(b: Booking, w: Workshop)
    ensures Contains(ReceiptBody(b, w), NotesSection(b.notes))
  {
    var rows := ServiceRows(b.services);
    var notes, total, closing := NotesSection(b.notes), TotalBlock(b.totalAmount), Closing(w);
    RegroupTail(rows + TableClose, notes, total, closing);
    ContainsSpliced(rows + TableClose, notes, total + closing);
  }

  /** The receipt thanks the workshop it is issued by. */
  lemma {:induction false} ReceiptNamesWorkshop(b: Booking, w: Workshop, created: string, scheduled: string)
    ensures Contains(ReceiptContent(b, w, created, scheduled), Thanks(w))
  {
    BodyNamesWorkshop(b, w);
    ContainsAfter(ReceiptHead(b, w, created, scheduled), ReceiptBody(b, w), Thanks(w));
  }

  lemma {:induction false} BodyNamesWorkshop(b: Booking, w: Workshop)
    ensures Contains(ReceiptBody(b, w), Thanks(w))
  {
    var rows := ServiceRows(b.services);
    var notes, total := NotesSection(b.notes), TotalBlock(b.totalAmount);
    var open := "<div class=\"section\" style=\"text-align: center; margin-top: 30px;\">\n<p>";
    var close := "</p>\n<p>We appreciate your business.</p>\n</div>\n</div>\n</body>\n</html>\n";
    RegroupLast(rows + TableClose + notes + total, open, Thanks(w), close);
    ContainsSpliced(rows + TableClose + notes + total + open, Thanks(w), close);
  }

  // Regroupings of a concatenation, stated over plain strings.

  lemma {:induction false} RegroupRow(x: string, y: string, z: string, t: string, n: string, o: string, c: string)
    ensures (x + y + z) + t + n + o + c == x + y + (z + t + n + o + c)
  {
  }

  lemma {:induction false} RegroupInner(p: string, o: string, x: string, c: string, r: string)
    ensures p + (o + x + c) + r == (p + o) + x + (c + r)
  {
  }

  lemma {:induction false} RegroupTail(p: string, n: string, t: string, c: string)
    ensures p + n + t + c == p + n + (t + c)
  {
  }

  lemma {:induction false} RegroupLast(p: string, o: string, x: string, c: string)
    ensures p + (o + x + c) == p + o + x + c
  {
  }

  // ---------------------------------------------------------------------
  // Download and badge

  const FilePrefix: string := "Receipt_"
  const FileSuffix: string := ".html"

  /** The name of the downloaded receipt file. */
  function DownloadFileName(bookingId: string): (r: string)
    ensures |r| == |bookingId| + 13
  {
    FilePrefix + bookingId + FileSuffix
  }

  /** The booking reference a receipt file name carries, if it has the shape of one. */
  function BookingIdOfFileName(name: string): Option<string>
  {
    if |name| >= 13 && name[..8] == FilePrefix && name[|name| - 5..] == FileSuffix
    then Some(name[8..|name| - 5])
    else None
  }

  /** The file name gives back the reference it was made from. */
  lemma {:induction false} DownloadFileNameRoundTrip(bookingId: string)
    ensures BookingIdOfFileName(DownloadFileName(bookingId)) == Some(bookingId)
  {
    var r := DownloadFileName(bookingId);
    assert r[..8] == FilePrefix;
    assert r[|r| - 5..] == FileSuffix;
    assert r[8..|r| - 5] == bookingId;
  }

  /** The receipt page's status badge: green for paid, blue for completed,
      gray for the rest. */
  function ReceiptStatusColor(s: Status): (r: string)
    ensures r == "bg-green-100 text-green-800" <==> s == Paid
    ensures r == "bg-blue-100 text-blue-800" <==> s == Completed
    ensures r == "bg-gray-100 text-gray-800" <==> s == Pending || s == Cancelled
  {
    match s
    case Paid => "bg-green-100 text-green-800"
    case Completed => "bg-blue-100 text-blue-800"
    case _ => "bg-gray-100 text-gray-800"
  }
}
