/** The staff session: who is logged in, whether a login is in progress,
    and the staff id remembered by the browser between visits. */
module AuthContext {
  import opened Common
  import opened Types
  import opened Text
  import Seqs

  const FallbackPin: string := "1234"
  const DemoStaffId: string := "demo-staff-1"

  /** The PIN that always logs in: the configured one, or `1234` when it is unset or empty. */
  function DefaultPin(envPin: Option<string>): (p: string)
    ensures p != ""
    ensures envPin.Some? && envPin.value != "" ==> p == envPin.value
  {
    OrDefault(envPin, FallbackPin)
  }

  /** The staff record a login with the default PIN produces. */
  function DemoStaff(now: int): Staff
  {
    Staff(DemoStaffId, "", "Workshop Staff", "admin", now)
  }

  /** The staff record restored from a remembered id. */
  function RestoredStaff(id: string, now: int): Staff
  {
    Staff(id, "", "Staff Member", "admin", now)
  }

  /** The first of the staff records (in the order the query returns them)
      whose PIN equals `pin`. */
  function FindStaffByPin(records: seq<Staff>, pin: string): (r: Option<Staff>)
    ensures r.Some? ==> r.value in records && r.value.pin == pin
    ensures r.Some? ==> exists k :: (0 <= k < |records| && records[k] == r.value
      && forall j :: 0 <= j < k ==> records[j].pin != pin)
    ensures r.None? <==> forall j :: 0 <= j < |records| ==> records[j].pin != pin
  {
    match Seqs.FindFirst(records, (s: Staff) => s.pin == pin)
    case None => None
    case Some(k) => Some(records[k])
  }

  /** Whom a login with `pin` authenticates, if anyone. The staff query is
      only made for a PIN other than the default, and `queryFails` says that
      it raised an error. */
  function LoginResult(pin: string, envPin: Option<string>, records: seq<Staff>, queryFails: bool, now: int)
    : (r: Option<Staff>)
    ensures pin == DefaultPin(envPin) ==> r == Some(DemoStaff(now))
    ensures pin != DefaultPin(envPin) && queryFails ==> r.None?
    ensures pin != DefaultPin(envPin) && !queryFails ==> r == FindStaffByPin(records, pin)
  {
    if pin == DefaultPin(envPin) then Some(DemoStaff(now))
    else if queryFails then None
    else FindStaffByPin(records, pin)
  }

  /** A login succeeds exactly for the default PIN or, when the query
      works, for a PIN some staff record has. */
  lemma {:induction false} LoginSucceedsIff(pin: string, envPin: Option<string>, records: seq<Staff>, queryFails: bool, now: int)
    ensures LoginResult(pin, envPin, records, queryFails, now).Some?
      <==> pin == DefaultPin(envPin) || (!queryFails && exists j :: 0 <= j < |records| && records[j].pin == pin)
  {
  }

  /** With no PIN configured, `1234` logs in as the demo staff member whatever the records say. */
  lemma {:induction false} UnconfiguredPinLogsIn(records: seq<Staff>, queryFails: bool, now: int)
    ensures LoginResult("1234", None, records, queryFails, now) == Some(DemoStaff(now))
    ensures LoginResult("1234", Some(""), records, queryFails, now) == Some(DemoStaff(now))
  {
  }

  class AuthSession {
    var staff: Option<Staff>
    var isLoading: bool
    /** The browser's remembered staff id. */
    var storedStaffId: Option<string>

    /** `isAuthenticated`. */
    function IsAuthenticated(): (b: bool)
      reads this
      ensures b <==> staff.Some?
    {
      staff.Some?
    }

    /** The provider before start-up: nobody logged in, loading. */
    constructor (stored: Option<string>)
      ensures staff.None? && isLoading && storedStaffId == stored
    {
      staff := None;
      isLoading := true;
      storedStaffId := stored;
    }

    /** Start-up: a remembered non-empty id restores a staff member with that id. */
    method Restore(now: int)
      modifies this
      ensures storedStaffId == old(storedStaffId) && !isLoading
      ensures old(storedStaffId).Some? && old(storedStaffId).value != "" ==>
        staff == Some(RestoredStaff(old(storedStaffId).value, now))
      ensures old(storedStaffId).None? || old(storedStaffId).value == "" ==> staff == old(staff)
    {
      if storedStaffId.Some? && storedStaffId.value != "" {
        staff := Some(RestoredStaff(storedStaffId.value, now));
      }
      isLoading := false;
    }

    /** `login`: on success the staff member is set and remembered; on an
        unknown PIN or a failed query nothing changes. Loading is over
        afterwards either way. */
    method Login(pin: string, envPin: Option<string>, records: seq<Staff>, queryFails: bool, now: int)
      returns (ok: bool)
      modifies this
      ensures !isLoading
      ensures ok == LoginResult(pin, envPin, records, queryFails, now).Some?
      ensures ok ==> staff == LoginResult(pin, envPin, records, queryFails, now)
      ensures ok ==> storedStaffId == Some(staff.value.id)
      ensures !ok ==> staff == old(staff) && storedStaffId == old(storedStaffId)
    {
      isLoading := true;
      var result := LoginResult(pin, envPin, records, queryFails, now);
      match result {
        case Some(s) =>
          staff := Some(s);
          storedStaffId := Some(s.id);
          ok := true;
        case None =>
          ok := false;
      }
      isLoading := false;
    }

    /** `logout`: nobody is logged in and nothing is remembered. */
    method Logout()
      modifies this
      ensures staff.None? && storedStaffId.None? && isLoading == old(isLoading)
    {
      staff := None;
      storedStaffId := None;
    }
  }

}
