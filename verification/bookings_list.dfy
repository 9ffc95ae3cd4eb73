/** The all-bookings page: the search and status filter, the five sort
    orders over a copy of the filtered list, and the per-status counts. */
module BookingsList {
  import opened Types
  import opened Text
  import Seqs

  // ---------------------------------------------------------------------
  // Filtering

  /** The search box matches the reference or the customer's name ignoring
      (ASCII) case, or the phone number as typed. */
  predicate MatchesSearch(b: Booking, term: string)
  {
    Contains(ToLower(b.bookingId), ToLower(term))
    || Contains(ToLower(b.customerName), ToLower(term))
    || Contains(b.customerPhone, term)
  }

  /** The status selector: `"all"` or one status name. */
  predicate MatchesStatus(b: Booking, statusFilter: string)
  {
    statusFilter == "all" || StatusName(b.status) == statusFilter
  }

  predicate Shown(b: Booking, term: string, statusFilter: string)
  {
    MatchesSearch(b, term) && MatchesStatus(b, statusFilter)
  }

  /** `filteredBookings`: the bookings that match both the search and the
      status selector, in their original order. */
  function FilteredBookings(bs: seq<Booking>, term: string, statusFilter: string): (r: seq<Booking>)
    ensures Seqs.IsSubsequence(r, bs)
    ensures forall b :: multiset(r)[b] == if Shown(b, term, statusFilter) then multiset(bs)[b] else 0
  {
    Seqs.Filter(bs, (b: Booking) => Shown(b, term, statusFilter))
  }

  /** A booking is listed exactly when it is stored and passes both tests. */
  lemma {:induction false} FilteredMember(bs: seq<Booking>, term: string, statusFilter: string, b: Booking)
    ensures b in FilteredBookings(bs, term, statusFilter)
      <==> b in bs && MatchesSearch(b, term) && MatchesStatus(b, statusFilter)
  {
    Seqs.FilterMember(bs, (b: Booking) => Shown(b, term, statusFilter), b);
  }

  /** The empty search with every status selected lists every booking, in order. */
  lemma {:induction false} EmptySearchShowsAll(bs: seq<Booking>)
    ensures FilteredBookings(bs, "", "all") == bs
  {
    forall i | 0 <= i < |bs| ensures Shown(bs[i], "", "all") {
      assert ToLower("") == "";
      assert Contains(bs[i].customerPhone, "") by {
        assert "" <= bs[i].customerPhone;
      }
    }
    Seqs.FilterKeepsAll(bs, (b: Booking) => Shown(b, "", "all"));
  }

  /** Selecting one status keeps exactly the bookings with that status. */
  lemma {:induction false} StatusFilterExact(b: Booking, s: Status)
    ensures MatchesStatus(b, StatusName(s)) <==> b.status == s
  {
    StatusNamesDistinct(b.status, s);
    StatusNamesDistinct(s, s);
  }

  // ---------------------------------------------------------------------
  // Sorting

  /** The sort selector's values; any other value is `Unrecognised`. */
  datatype SortKey = Newest | Oldest | AmountHigh | AmountLow | CustomerName | Unrecognised

  function SortKeyOf(s: string): (k: SortKey)
    ensures k == Newest <==> s == "newest"
    ensures k == Oldest <==> s == "oldest"
    ensures k == AmountHigh <==> s == "amount-high"
    ensures k == AmountLow <==> s == "amount-low"
    ensures k == CustomerName <==> s == "customer"
  {
    if s == "newest" then Newest
    else if s == "oldest" then Oldest
    else if s == "amount-high" then AmountHigh
    else if s == "amount-low" then AmountLow
    else if s == "customer" then CustomerName
    else Unrecognised
  }

  /** The comparator handed to `sort`: negative when `a` goes first. */
  function Compare(key: SortKey, a: Booking, b: Booking): int
  {
    match key
    case Newest => b.createdAt - a.createdAt
    case Oldest => a.createdAt - b.createdAt
    case AmountHigh => b.totalAmount - a.totalAmount
    case AmountLow => a.totalAmount - b.totalAmount
    case CustomerName => LocaleCompare(a.customerName, b.customerName)
    case Unrecognised => 0
  }

  /** `a` may precede `b` in a sorted list. */
  predicate Precedes(key: SortKey, a: Booking, b: Booking)
  {
    Compare(key, a, b) <= 0
  }

  /** Any two bookings can be placed one way round. */
  lemma {:induction false} PrecedesTotal(key: SortKey, a: Booking, b: Booking)
    ensures Precedes(key, a, b) || Precedes(key, b, a)
  {
    if key == CustomerName {
      LexLeTotal(a.customerName, b.customerName);
    }
  }

  /** Placing is transitive. */
  lemma {:induction false} PrecedesTransitive(key: SortKey, a: Booking, b: Booking, c: Booking)
    requires Precedes(key, a, b) && Precedes(key, b, c)
    ensures Precedes(key, a, c)
  {
    if key == CustomerName {
      LexLeTransitive(a.customerName, b.customerName, c.customerName);
    }
  }

  /** Every booking is placed no later than every booking after it. */
  predicate Sorted(key: SortKey, s: seq<Booking>)
  {
    forall i, j :: 0 <= i < j < |s| ==> Precedes(key, s[i], s[j])
  }

  /** Inserts `x` before the first booking it may precede. */
  function Insert(key: SortKey, x: Booking, s: seq<Booking>): (r: seq<Booking>)
    ensures multiset(r) == multiset(s) + multiset{x}
    ensures |r| == |s| + 1
  {
    if s == [] then [x]
    else if Precedes(key, x, s[0]) then [x] + s
    else
      assert s == [s[0]] + s[1..];
      [s[0]] + Insert(key, x, s[1..])
  }

  /** Insertion keeps a sorted list sorted. */
  lemma {:induction false} InsertSorted(key: SortKey, x: Booking, s: seq<Booking>)
    requires Sorted(key, s)
    ensures Sorted(key, Insert(key, x, s))
  {
    if s == [] {
    } else if Precedes(key, x, s[0]) {
      forall k | 0 <= k < |s| ensures Precedes(key, x, s[k]) {
        if k > 0 {
          PrecedesTransitive(key, x, s[0], s[k]);
        }
      }
      SortedCons(key, x, s);
    } else {
      PrecedesTotal(key, x, s[0]);
      InsertSorted(key, x, s[1..]);
      var t := Insert(key, x, s[1..]);
      forall k | 0 <= k < |t| ensures Precedes(key, s[0], t[k]) {
        assert t[k] in multiset(s[1..]) + multiset{x};
        if t[k] != x {
          var m :| 0 <= m < |s[1..]| && s[1..][m] == t[k];
          assert s[m + 1] == t[k];
        }
      }
      SortedCons(key, s[0], t);
    }
  }

  /** A booking placed before every member of a sorted list extends it. */
  lemma {:induction false} SortedCons(key: SortKey, x: Booking, s: seq<Booking>)
    requires Sorted(key, s)
    requires forall k :: 0 <= k < |s| ==> Precedes(key, x, s[k])
    ensures Sorted(key, [x] + s)
  {
    var r := [x] + s;
    forall i, j | 0 <= i < j < |r| ensures Precedes(key, r[i], r[j]) {
      if i == 0 {
        assert r[j] == s[j - 1];
      } else {
        assert r[i] == s[i - 1] && r[j] == s[j - 1];
      }
    }
  }

  /** `[...filteredBookings].sort(comparator)`: a stable sort of a copy. */
  function SortBookings(key: SortKey, s: seq<Booking>): (r: seq<Booking>)
    ensures multiset(r) == multiset(s)
    ensures |r| == |s|
  {
    if s == [] then []
    else
      assert s == [s[0]] + s[1..];
      Insert(key, s[0], SortBookings(key, s[1..]))
  }

  /** The sorted copy is ordered by the chosen key. */
  lemma {:induction false} SortBookingsSorted(key: SortKey, s: seq<Booking>)
    ensures Sorted(key, SortBookings(key, s))
  {
    if s != [] {
      SortBookingsSorted(key, s[1..]);
      InsertSorted(key, s[0], SortBookings(key, s[1..]));
    }
  }

  /** What each sort order means for the list shown. */
  lemma {:induction false} SortOrders(key: SortKey, s: seq<Booking>)
    ensures var r := SortBookings(key, s);
      && (key == Newest ==> forall i, j :: 0 <= i < j < |r| ==> r[i].createdAt >= r[j].createdAt)
      && (key == Oldest ==> forall i, j :: 0 <= i < j < |r| ==> r[i].createdAt <= r[j].createdAt)
      && (key == AmountHigh ==> forall i, j :: 0 <= i < j < |r| ==> r[i].totalAmount >= r[j].totalAmount)
      && (key == AmountLow ==> forall i, j :: 0 <= i < j < |r| ==> r[i].totalAmount <= r[j].totalAmount)
      && (key == CustomerName ==> forall i, j :: 0 <= i < j < |r| ==> LexLe(r[i].customerName, r[j].customerName))
  {
    SortBookingsSorted(key, s);
  }

  /** An unrecognised key compares everything as equal, so the filtered order stands. */
  lemma {:induction false} UnrecognisedKeepsOrder(s: seq<Booking>)
    ensures SortBookings(Unrecognised, s) == s
  {
    if s != [] {
      UnrecognisedKeepsOrder(s[1..]);
      assert s == [s[0]] + s[1..];
    }
  }

  // ---------------------------------------------------------------------
  // Counts

  datatype StatusCounts = StatusCounts(all: nat, pending: nat, paid: nat, completed: nat, cancelled: nat)

  function CountStatus(bs: seq<Booking>, s: Status): nat
  {
    |Seqs.Filter(bs, (b: Booking) => b.status == s)|
  }

  /** `statusCounts`: all bookings, and those with each status. */
  function Counts(bs: seq<Booking>): (r: StatusCounts)
    ensures r.all == |bs|
    ensures r.pending <= r.all && r.paid <= r.all && r.completed <= r.all && r.cancelled <= r.all
  {
    StatusCounts(|bs|, CountStatus(bs, Pending), CountStatus(bs, Paid),
                 CountStatus(bs, Completed), CountStatus(bs, Cancelled))
  }

  /** Every booking has exactly one status, so the four counts add up to all. */
  lemma {:induction false} CountsAddUp(bs: seq<Booking>)
    ensures var c := Counts(bs);
      c.pending + c.paid + c.completed + c.cancelled == c.all
  {
    if bs != [] {
      CountsAddUp(bs[1..]);
    }
  }

  /** A status badge counts what the list shows for that status with an empty search. */
  lemma {:induction false} CountMatchesList(bs: seq<Booking>, s: Status)
    ensures CountStatus(bs, s) == |FilteredBookings(bs, "", StatusName(s))|
  {
    forall b: Booking ensures Shown(b, "", StatusName(s)) == (b.status == s) {
      StatusFilterExact(b, s);
      assert ToLower("") == "";
      assert "" <= b.customerPhone;
    }
    Seqs.FilterSamePredicate(bs, (b: Booking) => Shown(b, "", StatusName(s)), (b: Booking) => b.status == s);
  }
}
