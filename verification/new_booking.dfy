/** The new-booking form: its state record, the edits the inputs make to it,
    the service checkboxes, the running price total and the submission that
    turns the form into a booking in the store. */
module NewBooking {
  import opened Common
  import opened Types
  import opened Text
  import Seqs
  import BookingContext

  /** The form's state. `scheduledDate` is the text of the date-time input;
      the date it denotes is supplied on submission. */
  datatype FormData = FormData(
    customerName: string,
    customerPhone: string,
    carDetails: CarDetails,
    selectedServices: seq<string>,
    scheduledDate: string,
    notes: string)

  /** The inputs that report edits: the four top-level text fields and the
      four `carDetails.*` fields. */
  datatype FormField =
    | CustomerName | CustomerPhone | ScheduledDate | Notes
    | CarMake | CarModel | CarYear | CarLicensePlate

  const EmptySelectionError: string := "Please select at least one service"

  // ---------------------------------------------------------------------
  // Catalogue lookups

  /** `services.find(s => s.id === id)`: the first catalogue entry with that id. */
  function FindService(catalogue: seq<Service>, id: string): (r: Option<nat>)
    ensures r.Some? ==> r.value < |catalogue| && catalogue[r.value].id == id
    ensures r.Some? ==> forall j :: 0 <= j < r.value ==> catalogue[j].id != id
    ensures r.None? <==> forall j :: 0 <= j < |catalogue| ==> catalogue[j].id != id
  {
    Seqs.FindFirst(catalogue, (s: Service) => s.id == id)
  }

  /** `service?.price || 0`: the price of the first entry with that id, 0 when there is none. */
  function PriceOf(catalogue: seq<Service>, id: string): nat
  {
    match FindService(catalogue, id)
    case None => 0
    case Some(j) => catalogue[j].price
  }

  /** An id missing from the catalogue costs 0; otherwise the first entry with it sets the price. */
  lemma {:induction false} PriceOfFirstMatch(catalogue: seq<Service>, id: string, j: nat)
    ensures (forall i :: 0 <= i < |catalogue| ==> catalogue[i].id != id) ==> PriceOf(catalogue, id) == 0
    ensures (j < |catalogue| && catalogue[j].id == id && forall k :: 0 <= k < j ==> catalogue[k].id != id)
      ==> PriceOf(catalogue, id) == catalogue[j].price
  {
    FirstMatchIsFound(catalogue, id, j);
  }

  /** `service?.name || ''`: the name of the first entry with that id, `""` when there is none. */
  function NameOf(catalogue: seq<Service>, id: string): string
  {
    match FindService(catalogue, id)
    case None => ""
    case Some(j) => catalogue[j].name
  }

  /** An id missing from the catalogue is named `""`; otherwise the first entry with it names it. */
  lemma {:induction false} NameOfFirstMatch(catalogue: seq<Service>, id: string, j: nat)
    ensures (forall i :: 0 <= i < |catalogue| ==> catalogue[i].id != id) ==> NameOf(catalogue, id) == ""
    ensures (j < |catalogue| && catalogue[j].id == id && forall k :: 0 <= k < j ==> catalogue[k].id != id)
      ==> NameOf(catalogue, id) == catalogue[j].name
  {
    FirstMatchIsFound(catalogue, id, j);
  }

  /** The first position holding an id is the one `FindService` returns. */
  lemma {:induction false} FirstMatchIsFound(catalogue: seq<Service>, id: string, j: nat)
    ensures (j < |catalogue| && catalogue[j].id == id && forall k :: 0 <= k < j ==> catalogue[k].id != id)
      ==> FindService(catalogue, id) == Some(j)
  {
    if j < |catalogue| && catalogue[j].id == id && forall k :: 0 <= k < j ==> catalogue[k].id != id {
      assert FindService(catalogue, id).Some?;
    }
  }

  // ---------------------------------------------------------------------
  // Total and names

  /** `calculateTotal`: the sum of the catalogue prices of the selected ids. */
  function CalculateTotal(selected: seq<string>, catalogue: seq<Service>): nat
  {
    if selected == [] then 0 else PriceOf(catalogue, selected[0]) + CalculateTotal(selected[1..], catalogue)
  }

  /** The default catalogue gives every service an id of its own, so
      looking a service up by its id finds its own price and name. */
  lemma {:induction false} DefaultCatalogueLookup(k: nat)
    requires k < |BookingContext.DefaultServices|
    ensures PriceOf(BookingContext.DefaultServices, BookingContext.DefaultServices[k].id)
      == BookingContext.DefaultServices[k].price
    ensures NameOf(BookingContext.DefaultServices, BookingContext.DefaultServices[k].id)
      == BookingContext.DefaultServices[k].name
  {
    var c := BookingContext.DefaultServices;
    assert forall j :: 0 <= j < k ==> c[j].id != c[k].id;
    PriceOfFirstMatch(c, c[k].id, k);
    NameOfFirstMatch(c, c[k].id, k);
  }

  /** The total of a concatenation is the sum of the totals. */
  lemma {:induction false} TotalAppend(a: seq<string>, b: seq<string>, catalogue: seq<Service>)
    ensures CalculateTotal(a + b, catalogue) == CalculateTotal(a, catalogue) + CalculateTotal(b, catalogue)
  {
    if a == [] {
      assert a + b == b;
    } else {
      assert (a + b)[1..] == a[1..] + b;
      TotalAppend(a[1..], b, catalogue);
    }
  }

  /** Every occurrence of an id counts once: the total is the total of the
      other ids plus the id's price once per occurrence. */
  lemma {:induction false} TotalCounts(selected: seq<string>, catalogue: seq<Service>, id: string)
    ensures CalculateTotal(selected, catalogue)
      == CalculateTotal(Without(selected, id), catalogue) + Repeated(multiset(selected)[id], PriceOf(catalogue, id))
  {
    if selected != [] {
      var h, rest := selected[0], selected[1..];
      var n := multiset(rest)[id];
      var f := Without(rest, id);
      TotalCounts(rest, catalogue, id);
      assert multiset(selected)[id] == n + (if h == id then 1 else 0) by {
        assert selected == [h] + rest;
      }
      if h != id {
        assert CalculateTotal([h] + f, catalogue) == PriceOf(catalogue, h) + CalculateTotal(f, catalogue) by {
          assert ([h] + f)[1..] == f;
        }
      }
    }
  }

  /** `price` added up `k` times. */
  function Repeated(k: nat, price: nat): nat
  {
    if k == 0 then 0 else price + Repeated(k - 1, price)
  }

  lemma {:induction false} RepeatedIsProduct(k: nat, price: nat)
    ensures Repeated(k, price) == k * price
  {
    if k > 0 {
      RepeatedIsProduct(k - 1, price);
      MulSucc(k - 1, price);
    }
  }

  lemma {:induction false} MulSucc(n: nat, k: nat)
    ensures (n + 1) * k == n * k + k
  {
  }

  /** The total over a selection of ids none of which is in the catalogue is 0. */
  lemma {:induction false} TotalOfUnknown(selected: seq<string>, catalogue: seq<Service>)
    requires forall i, j :: 0 <= i < |selected| && 0 <= j < |catalogue| ==> catalogue[j].id != selected[i]
    ensures CalculateTotal(selected, catalogue) == 0
  {
    if selected != [] {
      TotalOfUnknown(selected[1..], catalogue);
    }
  }

  /** The booking's `services`: the selected ids mapped, in order, to catalogue names. */
  function ServiceNames(selected: seq<string>, catalogue: seq<Service>): (r: seq<string>)
    ensures |r| == |selected|
    ensures forall i :: 0 <= i < |selected| && FindService(catalogue, selected[i]).None? ==> r[i] == ""
    ensures forall i :: 0 <= i < |selected| && FindService(catalogue, selected[i]).Some? ==>
      r[i] == catalogue[FindService(catalogue, selected[i]).value].name
  {
    seq(|selected|, i requires 0 <= i < |selected| => NameOf(catalogue, selected[i]))
  }

  // ---------------------------------------------------------------------
  // The service checkboxes

  /** `selected.filter(x => x !== id)`: the selection with every occurrence of `id` removed. */
  function Without(s: seq<string>, id: string): seq<string>
  {
    if s == [] then []
    else if s[0] != id then [s[0]] + Without(s[1..], id)
    else Without(s[1..], id)
  }

  /** Removing an id deletes all its occurrences, keeps the order of the
      rest, and keeps every other id as often as it was there. */
  lemma {:induction false} WithoutRemoves(s: seq<string>, id: string)
    ensures id !in Without(s, id)
    ensures Seqs.IsSubsequence(Without(s, id), s)
    ensures forall x :: x != id ==> multiset(Without(s, id))[x] == multiset(s)[x]
  {
    if s != [] {
      WithoutRemoves(s[1..], id);
      assert s == [s[0]] + s[1..];
      if s[0] != id {
        assert ([s[0]] + Without(s[1..], id))[1..] == Without(s[1..], id);
      }
    }
  }

  /** Removing an id that does not occur changes nothing. */
  lemma {:induction false} WithoutAbsent(s: seq<string>, id: string)
    requires id !in s
    ensures Without(s, id) == s
  {
    if s != [] {
      WithoutAbsent(s[1..], id);
      assert s == [s[0]] + s[1..];
    }
  }

  /** Removal distributes over concatenation. */
  lemma {:induction false} WithoutAppend(a: seq<string>, b: seq<string>, id: string)
    ensures Without(a + b, id) == Without(a, id) + Without(b, id)
  {
    if a == [] {
      assert a + b == b;
    } else {
      assert (a + b)[1..] == a[1..] + b;
      WithoutAppend(a[1..], b, id);
    }
  }

  /** The selection after checking (`checked`) or unchecking the box of `id`. */
  function Toggle(selected: seq<string>, id: string, checked: bool): (r: seq<string>)
    ensures checked ==> r == selected + [id]
    ensures !checked ==> id !in r && Seqs.IsSubsequence(r, selected)
    ensures !checked ==> forall x :: x != id ==> multiset(r)[x] == multiset(selected)[x]
  {
    if checked then selected + [id]
    else
      WithoutRemoves(selected, id);
      Without(selected, id)
  }

  /** Checking and then unchecking a box that was not checked restores the selection. */
  lemma {:induction false} ToggleOnOff(selected: seq<string>, id: string)
    requires id !in selected
    ensures Toggle(Toggle(selected, id, true), id, false) == selected
  {
    WithoutAppend(selected, [id], id);
    WithoutAbsent(selected, id);
    assert Without([id], id) == [];
  }

  /** Checking a box adds its price to the total. */
  lemma {:induction false} TotalToggleOn(selected: seq<string>, id: string, catalogue: seq<Service>)
    ensures CalculateTotal(Toggle(selected, id, true), catalogue)
      == CalculateTotal(selected, catalogue) + PriceOf(catalogue, id)
  {
    TotalAppend(selected, [id], catalogue);
  }

  /** Unchecking a box removes its price once per occurrence. */
  lemma {:induction false} TotalToggleOff(selected: seq<string>, id: string, catalogue: seq<Service>)
    ensures CalculateTotal(Toggle(selected, id, false), catalogue)
      == CalculateTotal(selected, catalogue) - multiset(selected)[id] * PriceOf(catalogue, id)
  {
    TotalCounts(selected, catalogue, id);
    RepeatedIsProduct(multiset(selected)[id], PriceOf(catalogue, id));
  }

  // ---------------------------------------------------------------------
  // The year input

  /** `parseInt(value) || currentYear`: the parsed year, or the current year
      when the text is not a number or parses to 0. */
  function YearValue(value: string, currentYear: int): (y: int)
    ensures (ParseInt(value).Some? && ParseInt(value).value != 0) ==> y == ParseInt(value).value
    ensures (ParseInt(value).None? || ParseInt(value) == Some(0)) ==> y == currentYear
  {
    match ParseInt(value)
    case Some(n) => if n != 0 then n else currentYear
    case None => currentYear
  }

  /** A typed year other than 0 is stored as typed. */
  lemma {:induction false} YearOfNumber(year: int, currentYear: int)
    requires year != 0
    ensures YearValue(IntToString(year), currentYear) == year
  {
    ParseIntOfIntToString(year);
  }

  /** Text without digits stores the current year. */
  lemma {:induction false} YearOfText(value: string, currentYear: int)
    requires forall i :: 0 <= i < |value| ==> !IsDigit(value[i])
    ensures YearValue(value, currentYear) == currentYear
  {
    ParseIntNoDigits(value);
  }

  // ---------------------------------------------------------------------
  // Submission

  /** The validation and record construction of `handleSubmit`: an empty
      selection is refused; otherwise a pending booking priced and named
      from the catalogue, for a customer the store assigns later. */
  function BuildBookingData(form: FormData, catalogue: seq<Service>, scheduledAt: int): (r: Result<BookingData, string>)
    ensures r.Err? <==> |form.selectedServices| == 0
    ensures r.Err? ==> r.error == EmptySelectionError
    ensures r.Ok? ==> r.value.status == Pending
    ensures r.Ok? ==> r.value.totalAmount == CalculateTotal(form.selectedServices, catalogue)
    ensures r.Ok? ==> r.value.services == ServiceNames(form.selectedServices, catalogue)
    ensures r.Ok? ==> r.value.customerId == "" && r.value.customerName == form.customerName
    ensures r.Ok? ==> r.value.customerPhone == form.customerPhone && r.value.carDetails == form.carDetails
    ensures r.Ok? ==> r.value.scheduledDate == scheduledAt && r.value.notes == Some(form.notes)
    ensures r.Ok? ==> r.value.paymentLink.None?
  {
    if |form.selectedServices| == 0 then Err(EmptySelectionError)
    else Ok(BookingData(
      "",
      form.customerName,
      form.customerPhone,
      form.carDetails,
      ServiceNames(form.selectedServices, catalogue),
      CalculateTotal(form.selectedServices, catalogue),
      Pending,
      scheduledAt,
      None,
      Some(form.notes)))
  }

  // ---------------------------------------------------------------------
  // The form component

  class NewBookingForm {
    var formData: FormData

    /** The initial form: empty texts, the current year, no services, and
        the current date-time text `now` for the schedule. */
    constructor (currentYear: int, now: string)
      ensures formData == FormData("", "", CarDetails("", "", currentYear, ""), [], now, "")
    {
      formData := FormData("", "", CarDetails("", "", currentYear, ""), [], now, "");
    }

    /** `handleInputChange`: replaces the one field the input edits; the
        year field stores `YearValue`. */
    method HandleInputChange(field: FormField, value: string, currentYear: int)
      modifies this
      ensures field == CustomerName ==> formData == old(formData).(customerName := value)
      ensures field == CustomerPhone ==> formData == old(formData).(customerPhone := value)
      ensures field == ScheduledDate ==> formData == old(formData).(scheduledDate := value)
      ensures field == Notes ==> formData == old(formData).(notes := value)
      ensures field == CarMake ==> formData == old(formData).(carDetails := old(formData).carDetails.(make := value))
      ensures field == CarModel ==> formData == old(formData).(carDetails := old(formData).carDetails.(model := value))
      ensures field == CarYear ==>
        formData == old(formData).(carDetails := old(formData).carDetails.(year := YearValue(value, currentYear)))
      ensures field == CarLicensePlate ==>
        formData == old(formData).(carDetails := old(formData).carDetails.(licensePlate := value))
    {
      var car := formData.carDetails;
      match field
      case CustomerName => formData := formData.(customerName := value);
      case CustomerPhone => formData := formData.(customerPhone := value);
      case ScheduledDate => formData := formData.(scheduledDate := value);
      case Notes => formData := formData.(notes := value);
      case CarMake => formData := formData.(carDetails := car.(make := value));
      case CarModel => formData := formData.(carDetails := car.(model := value));
      case CarYear => formData := formData.(carDetails := car.(year := YearValue(value, currentYear)));
      case CarLicensePlate => formData := formData.(carDetails := car.(licensePlate := value));
    }

    /** `handleServiceToggle`: only the selection changes. */
    method HandleServiceToggle(id: string, checked: bool)
      modifies this
      ensures formData == old(formData).(selectedServices := Toggle(old(formData).selectedServices, id, checked))
    {
      formData := formData.(selectedServices := Toggle(formData.selectedServices, id, checked));
    }

    /** `handleSubmit`: refuses an empty selection and leaves the store
        alone; otherwise creates the booking and returns its document id.
        Prices and names come from the store's catalogue; the date the
        schedule text denotes is `scheduledAt`. */
    method HandleSubmit(store: BookingContext.BookingStore, scheduledAt: int,
                        clock: BookingContext.Clock, random: nat, docId: string, customerDocId: string)
      returns (r: Result<string, string>)
      requires store.Valid()
      requires BookingContext.ValidClock(clock) && random < 1000
      requires docId !in BookingContext.BookingIds(store.bookings)
      requires store.FreshCustomerId(customerDocId)
      modifies store
      ensures store.Valid()
      ensures |formData.selectedServices| == 0 ==>
        r == Err(EmptySelectionError)
        && store.bookings == old(store.bookings) && store.customers == old(store.customers)
      ensures |formData.selectedServices| > 0 ==>
        var data := BuildBookingData(formData, store.services, scheduledAt).value;
        r == Ok(docId)
        && store.bookings == old(store.bookings)
             + [BookingContext.NewBooking(data, docId, BookingContext.GenerateBookingId(clock, random), clock.now)]
        && store.customers == BookingContext.RecordBooking(old(store.customers), data, docId, customerDocId, clock.now)
    {
      match BuildBookingData(formData, store.services, scheduledAt)
      case Err(e) =>
        r := Err(e);
      case Ok(data) =>
        var id := store.CreateBooking(data, clock, random, docId, customerDocId);
        r := Ok(id);
    }
  }
}
