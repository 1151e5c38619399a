/** The application store as values: the whole session state as one record,
    and every store action as a total function from the state before the
    action to the state after it. The class `Store.AppStore` performs the
    same actions field by field and is proved to agree with these functions;
    the lemmas here state what the actions promise, alone and in sequence. */
module Session {
  import opened Domain
  import opened Numerals
  import Navigation

  // ---------------------------------------------------------------------
  // The fixed roster of mock identities
  // ---------------------------------------------------------------------

  const AdminPhone: string := "0000000000"
  const AdminUser: User := User("admin-001", "Admin", AdminPhone, ADMIN)
  const MockProviderUser: User := User("provider-1", "Suresh Kumar", "8765432109", PROVIDER)
  const MockCustomerUser: User := User("user-1", "Rohan Sharma", "9876543210", USER)
  const MockUsers: seq<User> := [AdminUser, MockProviderUser, MockCustomerUser]
  const NewUserName: string := "New User"

  /** A phone number that belongs to one of the mock identities. */
  predicate KnownPhone(phone: string) {
    exists u :: u in MockUsers && u.phone == phone
  }

  /** `Array.prototype.find` on the phone number. */
  function FindByPhone(users: seq<User>, phone: string): (r: Option<User>)
    ensures r.Some? ==> r.value in users && r.value.phone == phone
    ensures r.None? <==> forall u :: u in users ==> u.phone != phone
  {
    if users == [] then None
    else if users[0].phone == phone then Some(users[0])
    else FindByPhone(users[1..], phone)
  }

  /** Who logs in: an identity of the fixed roster, or a freshly made one. */
  datatype Resolution = Existing(user: User) | Created(user: User)

  function NewUserId(now: nat): string {
    "user-" + Show(now)
  }

  /** The identity `login(phone, role)` settles on. The administrator's
      phone wins over any role; any other phone of the roster gives that
      roster entry; an unknown phone gives a new identity with the role asked
      for. The lookup is against the fixed roster only. */
  function ResolveLogin(phone: string, role: Role, now: nat): (r: Resolution)
    ensures r.user.phone == phone
    ensures phone == AdminPhone ==> r == Existing(AdminUser)
    ensures r.Existing? <==> KnownPhone(phone)
    ensures r.Existing? ==> r.user in MockUsers
    ensures r.Created? ==> r.user == User(NewUserId(now), NewUserName, phone, role)
  {
    if phone == AdminUser.phone then Existing(AdminUser)
    else
      match FindByPhone(MockUsers, phone)
      case Some(u) => Existing(u)
      case None => Created(User(NewUserId(now), NewUserName, phone, role))
  }

  /** The special case for the administrator's phone is subsumed by the
      roster lookup, since the administrator heads the roster. */
  lemma AdminCaseRedundant()
    ensures FindByPhone(MockUsers, AdminPhone) == Some(AdminUser)
  {
  }

  /** The first screen of a freshly logged-in session. */
  function HomeFor(role: Role): Screen {
    match role
    case ADMIN => AdminDashboard
    case PROVIDER => ProviderDashboard
    case USER => Home
  }

  // ---------------------------------------------------------------------
  // Bookings and jobs
  // ---------------------------------------------------------------------

  function BookingId(now: nat): string {
    "booking-" + Show(now)
  }

  function NewBooking(van: Van, user: User, now: nat): Booking {
    Domain.Booking(BookingId(now), van, now, EnRoute, None, None, None, user)
  }

  /** A booking as `createBooking` makes it: en route, nothing charged, not
      rated. */
  predicate IsOpen(b: Booking) {
    b.status == EnRoute && b.kWhCharged.None? && b.finalCost.None? && b.userRating.None?
  }

  /** The energy reading drawn at completion, in hundredths of a kWh:
      `Math.round((Math.random() * 10 + 5) * 100)` lies in 500..1500. */
  predicate ValidReading(kWhCents: int) {
    500 <= kWhCents <= 1500
  }

  function KWh(kWhCents: int): real {
    kWhCents as real / 100.0
  }

  /** What `kWh` kilowatt-hours cost at `pricePerKWh` each. */
  function Cost(kWh: real, pricePerKWh: real): real {
    kWh * pricePerKWh
  }

  /** A booking that has left the active slot: either completed, with an
      energy reading of 5 to 15 kWh and a cost of that reading times the
      van's price per kWh, or cancelled with neither. */
  predicate IsSettled(b: Booking) {
    || (&& b.status == Completed
        && b.kWhCharged.Some? && 5.0 <= b.kWhCharged.value <= 15.0
        && b.finalCost == Some(Cost(b.kWhCharged.value, b.van.pricePerKWh)))
    || (b.status == Cancelled && b.kWhCharged.None? && b.finalCost.None?)
  }

  function CompletedCopy(b: Booking, kWhCents: int): Booking {
    var kWh := KWh(kWhCents);
    b.(status := Completed, kWhCharged := Some(kWh), finalCost := Some(Cost(kWh, b.van.pricePerKWh)))
  }

  function CancelledCopy(b: Booking): Booking {
    b.(status := Cancelled)
  }

  function CountJobsOf(jobs: seq<Job>, bookingId: string): nat {
    if jobs == [] then 0
    else (if jobs[0].booking.id == bookingId then 1 else 0) + CountJobsOf(jobs[1..], bookingId)
  }

  /** `jobs.filter(j => j.booking.id !== bookingId)`: every job of that
      booking goes, every other job stays. */
  function RemoveJobsOf(jobs: seq<Job>, bookingId: string): (r: seq<Job>)
    ensures |r| == |jobs| - CountJobsOf(jobs, bookingId)
    ensures forall j :: j in r <==> j in jobs && j.booking.id != bookingId
  {
    if jobs == [] then []
    else if jobs[0].booking.id == bookingId then RemoveJobsOf(jobs[1..], bookingId)
    else [jobs[0]] + RemoveJobsOf(jobs[1..], bookingId)
  }

  /** The filter works job by job, so the jobs that stay keep their order. */
  lemma {:induction false} RemoveJobsOfAppend(a: seq<Job>, b: seq<Job>, bookingId: string)
    ensures RemoveJobsOf(a + b, bookingId) == RemoveJobsOf(a, bookingId) + RemoveJobsOf(b, bookingId)
  {
    if a == [] {
      assert a + b == b;
    } else {
      var ab := a + b;
      assert ab[0] == a[0];
      assert ab[1..] == a[1..] + b;
      RemoveJobsOfAppend(a[1..], b, bookingId);
      var rest := RemoveJobsOf(a[1..], bookingId) + RemoveJobsOf(b, bookingId);
      if a[0].booking.id == bookingId {
        assert RemoveJobsOf(ab, bookingId) == rest;
      } else {
        assert RemoveJobsOf(ab, bookingId) == [a[0]] + rest;
        assert [a[0]] + rest == ([a[0]] + RemoveJobsOf(a[1..], bookingId)) + RemoveJobsOf(b, bookingId);
      }
    }
  }

  /** A queue with no job of the booking passes the filter unchanged. */
  lemma {:induction false} RemoveJobsOfNone(jobs: seq<Job>, bookingId: string)
    requires forall j :: j in jobs ==> j.booking.id != bookingId
    ensures RemoveJobsOf(jobs, bookingId) == jobs
  {
    if jobs != [] {
      assert jobs[0] in jobs;
      RemoveJobsOfNone(jobs[1..], bookingId);
      assert [jobs[0]] + jobs[1..] == jobs;
    }
  }

  /** `history.map(b => b.id === bookingId ? {...b, userRating: rating} : b)`. */
  function Rated(history: seq<Booking>, bookingId: string, rating: int): (r: seq<Booking>)
    ensures |r| == |history|
    ensures forall i :: 0 <= i < |r| ==>
      r[i] == if history[i].id == bookingId then history[i].(userRating := Some(rating)) else history[i]
    ensures (forall b :: b in history ==> IsSettled(b)) ==> forall b :: b in r ==> IsSettled(b)
  {
    if history == [] then []
    else
      var b := history[0];
      assert b in history && forall c :: c in history[1..] ==> c in history;
      [if b.id == bookingId then b.(userRating := Some(rating)) else b] + Rated(history[1..], bookingId, rating)
  }

  /** A second rating of the same booking replaces the first. */
  lemma RatedOverwrites(history: seq<Booking>, bookingId: string, first: int, second: int)
    ensures Rated(Rated(history, bookingId, first), bookingId, second) == Rated(history, bookingId, second)
  {
    var m := Rated(history, bookingId, first);
    var x, y := Rated(m, bookingId, second), Rated(history, bookingId, second);
    assert |x| == |y|;
    forall i | 0 <= i < |x| ensures x[i] == y[i] {
      assert m[i].id == history[i].id;
    }
  }

  // ---------------------------------------------------------------------
  // The van roster
  // ---------------------------------------------------------------------

  const DefaultRating: real := 5.0
  const CentreLat: real := 12.9716
  const CentreLng: real := 77.5946

  function VanId(now: nat): string {
    "van-" + Show(now)
  }

  /** The van `addProvider` builds from the typed-in fields: a new id, a
      position drawn within 0.05 degrees of the city centre (the two draws
      are `Math.random()` results), the top rating and approved status. */
  function NewProvider(data: ProviderData, now: nat, latDraw: real, lngDraw: real): (v: Van)
    requires 0.0 <= latDraw < 1.0 && 0.0 <= lngDraw < 1.0
    ensures v.id == VanId(now) && v.rating == DefaultRating && v.status == Some(Approved)
    ensures v.partnerName == data.partnerName && v.vanModel == data.vanModel
    ensures v.etaMinutes == data.etaMinutes && v.pricePerKWh == data.pricePerKWh
    ensures v.capacityKWh == data.capacityKWh
    ensures CentreLat - 0.05 <= v.lat < CentreLat + 0.05
    ensures CentreLng - 0.05 <= v.lng < CentreLng + 0.05
  {
    Van(VanId(now), data.partnerName, data.vanModel, DefaultRating, data.etaMinutes,
        data.pricePerKWh, data.capacityKWh,
        CentreLat + (latDraw - 0.5) * 0.1, CentreLng + (lngDraw - 0.5) * 0.1,
        Some(Approved))
  }

  function Ids(vans: seq<Van>): (r: seq<string>)
    ensures |r| == |vans| && forall i :: 0 <= i < |r| ==> r[i] == vans[i].id
  {
    if vans == [] then [] else [vans[0].id] + Ids(vans[1..])
  }

  predicate DistinctIds(vans: seq<Van>) {
    forall i, k :: 0 <= i < k < |vans| ==> vans[i].id != vans[k].id
  }

  /** `vans.map(p => p.id === v.id ? v : p)`. */
  function ReplaceVan(vans: seq<Van>, v: Van): (r: seq<Van>)
    ensures |r| == |vans|
    ensures forall i :: 0 <= i < |r| ==> r[i] == if vans[i].id == v.id then v else vans[i]
  {
    if vans == [] then []
    else [if vans[0].id == v.id then v else vans[0]] + ReplaceVan(vans[1..], v)
  }

  /** Replacing keeps every id in its place. */
  lemma {:induction false} ReplaceVanKeepsIds(vans: seq<Van>, v: Van)
    ensures Ids(ReplaceVan(vans, v)) == Ids(vans)
  {
    if vans != [] {
      ReplaceVanKeepsIds(vans[1..], v);
      assert ReplaceVan(vans, v)[1..] == ReplaceVan(vans[1..], v);
    }
  }

  /** An update with an id that is not on the roster changes nothing. */
  lemma ReplaceVanAbsent(vans: seq<Van>, v: Van)
    ensures v.id !in Ids(vans) ==> ReplaceVan(vans, v) == vans
  {
    if v.id !in Ids(vans) {
      var r := ReplaceVan(vans, v);
      forall i | 0 <= i < |vans| ensures r[i] == vans[i] {
        assert Ids(vans)[i] == vans[i].id;
      }
    }
  }

  /** Replacing keeps the id of every entry. */
  lemma ReplaceVanIdAt(vans: seq<Van>, v: Van, i: int)
    requires 0 <= i < |vans|
    ensures ReplaceVan(vans, v)[i].id == vans[i].id
  {
  }

  /** Replacing keeps distinct ids distinct. */
  lemma ReplaceVanKeepsDistinct(vans: seq<Van>, v: Van)
    requires DistinctIds(vans)
    ensures DistinctIds(ReplaceVan(vans, v))
  {
    var r := ReplaceVan(vans, v);
    forall i, k | 0 <= i < k < |r| ensures r[i].id != r[k].id {
      ReplaceVanIdAt(vans, v, i);
      ReplaceVanIdAt(vans, v, k);
    }
  }

  /** A listed id has a position on the roster. */
  lemma IndexOfId(vans: seq<Van>, id: string) returns (i: nat)
    requires id in Ids(vans)
    ensures i < |vans| && vans[i].id == id
  {
    var ids := Ids(vans);
    i :| i < |ids| && ids[i] == id;
  }

  /** On a roster with distinct ids, an update of a listed id leaves exactly
      one entry with that id, and that entry is the update. */
  lemma ReplaceVanPresent(vans: seq<Van>, v: Van)
    requires DistinctIds(vans) && v.id in Ids(vans)
    ensures DistinctIds(ReplaceVan(vans, v))
    ensures exists i :: 0 <= i < |vans| && ReplaceVan(vans, v)[i] == v
    ensures forall i :: 0 <= i < |vans| && ReplaceVan(vans, v)[i].id == v.id ==> ReplaceVan(vans, v)[i] == v
  {
    ReplaceVanKeepsDistinct(vans, v);
    var r := ReplaceVan(vans, v);
    var i := IndexOfId(vans, v.id);
    assert r[i] == v;
    forall k | 0 <= k < |vans| && r[k].id == v.id ensures r[k] == v {
      ReplaceVanIdAt(vans, v, k);
    }
  }

  /** The three vans the app lists when its generative source is unavailable. */
  const FallbackVans: seq<Van> := [
    Van("1", "ChargeUp Now", "Tata Ace EV", 4.8, 12, 20.0, 30, 12.9716, 77.5946, None),
    Van("2", "BoltCharge", "Mahindra E-Supro", 4.6, 25, 18.0, 25, 12.9810, 77.6042, None),
    Van("3", "EcoBoosters", "Ashok Leyland Dost EV", 4.9, 8, 22.0, 40, 12.9650, 77.5841, None)
  ]

  lemma FallbackIdsDistinct()
    ensures DistinctIds(FallbackVans)
  {
  }

  /** With the fallback list loaded, an edit of a listed van leaves exactly
      one entry with its id, and that entry is the edit. */
  lemma FallbackRosterUpdate(s: State, v: Van)
    requires v.id in Ids(FallbackVans)
    ensures
      var r := UpdateProvider(ProvidersLoaded(s, FallbackVans), v).allProviders;
      && DistinctIds(r)
      && (exists i :: 0 <= i < |r| && r[i] == v)
      && (forall i :: 0 <= i < |r| && r[i].id == v.id ==> r[i] == v)
  {
    FallbackIdsDistinct();
    ReplaceVanPresent(FallbackVans, v);
  }

  // ---------------------------------------------------------------------
  // The session state and its invariant
  // ---------------------------------------------------------------------

  datatype State = State(
    history: seq<Screen>,
    isAuthenticated: bool,
    user: Option<User>,
    theme: Theme,
    selectedVan: Option<Van>,
    activeBooking: Option<Booking>,
    bookingHistory: seq<Booking>,
    isAvailable: bool,
    incomingJobs: seq<Job>,
    activeJob: Option<Job>,
    allProviders: seq<Van>,
    allUsers: seq<User>)

  /** What every action keeps: a non-empty history; authenticated exactly
      when someone is logged in; the fixed roster at the head of the user
      list; an active booking that is open; a booking history of settled
      bookings; a queue of pending jobs for open bookings; an active job that
      is accepted or arrived. */
  predicate Inv(s: State) {
    && |s.history| > 0
    && (s.isAuthenticated <==> s.user.Some?)
    && MockUsers <= s.allUsers
    && (s.activeBooking.Some? ==> IsOpen(s.activeBooking.value))
    && (forall b :: b in s.bookingHistory ==> IsSettled(b))
    && (forall j :: j in s.incomingJobs ==> j.status == Pending && IsOpen(j.booking))
    && (s.activeJob.Some? ==> s.activeJob.value.status in {Accepted, Arrived})
  }

  /** The state at start-up: the welcome screen, nobody logged in, the fixed
      roster, no vans yet. */
  function Initial(theme: Theme): (r: State)
    ensures Inv(r) && r.history == [Welcome] && r.user.None? && !r.isAuthenticated
    ensures r.allUsers == MockUsers && r.allProviders == [] && r.bookingHistory == [] && r.incomingJobs == []
    ensures r.activeBooking.None? && r.selectedVan.None? && r.activeJob.None? && !r.isAvailable
    ensures r.theme == theme
  {
    State([Welcome], false, None, theme, None, None, [], false, [], None, [], MockUsers)
  }

  // ---------------------------------------------------------------------
  // The actions
  // ---------------------------------------------------------------------

  /** `generateVansData().then(setAllProviders)`: the fetched list replaces
      the roster of vans. */
  function ProvidersLoaded(s: State, vans: seq<Van>): (r: State)
    ensures Inv(s) ==> Inv(r)
    ensures r.allProviders == vans && r.(allProviders := s.allProviders) == s
  {
    s.(allProviders := vans)
  }

  function ToggleTheme(s: State): (r: State)
    ensures Inv(s) ==> Inv(r)
    ensures r.theme != s.theme && r.(theme := s.theme) == s
  {
    s.(theme := if s.theme == Light then Dark else Light)
  }

  function NavigateTo(s: State, screen: Screen): (r: State)
    ensures Inv(s) ==> Inv(r)
    ensures s.history < r.history && |r.history| == |s.history| + 1
    ensures Navigation.Current(r.history) == screen
    ensures r.(history := s.history) == s
  {
    s.(history := Navigation.Push(s.history, screen))
  }

  function NavigateBack(s: State): (r: State)
    ensures Inv(s) ==> Inv(r)
    ensures r.history <= s.history
    ensures |r.history| == |s.history| <==> !Navigation.CanGoBack(s.history)
    ensures Navigation.CanGoBack(s.history) ==> |r.history| == |s.history| - 1
    ensures r.(history := s.history) == s
  {
    if Navigation.CanGoBack(s.history) then s.(history := Navigation.Pop(s.history)) else s
  }

  /** `login(phone, role)`: the resolved identity is logged in and the
      history restarts at that identity's home screen. A new identity is
      appended to the user list. */
  function Login(s: State, phone: string, role: Role, now: nat): (r: State)
    ensures Inv(s) ==> Inv(r)
    ensures r.isAuthenticated && r.user.Some? && r.user.value.phone == phone
    ensures r.user == Some(ResolveLogin(phone, role, now).user)
    ensures r.history == [HomeFor(r.user.value.role)]
    ensures r.allUsers == if ResolveLogin(phone, role, now).Created? then s.allUsers + [r.user.value] else s.allUsers
    ensures r.(history := s.history, isAuthenticated := s.isAuthenticated,
               user := s.user, allUsers := s.allUsers) == s
  {
    var res := ResolveLogin(phone, role, now);
    s.(user := Some(res.user),
       isAuthenticated := true,
       history := [HomeFor(res.user.role)],
       allUsers := if res.Created? then s.allUsers + [res.user] else s.allUsers)
  }

  /** What `login` returns to its caller: never null under these rules. */
  function LoginResult(phone: string, role: Role, now: nat): (u: Option<User>)
    ensures u.Some? && u.value.phone == phone
  {
    Some(ResolveLogin(phone, role, now).user)
  }

  /** `logout()`: the session ends and the history restarts at the welcome
      screen; the booking history, the job queue, availability and both
      rosters survive it. */
  function Logout(s: State): (r: State)
    ensures Inv(s) ==> Inv(r)
    ensures r.user.None? && !r.isAuthenticated && r.history == [Welcome]
    ensures r.activeBooking.None? && r.selectedVan.None? && r.activeJob.None?
    ensures r.bookingHistory == s.bookingHistory && r.incomingJobs == s.incomingJobs
    ensures r.isAvailable == s.isAvailable && r.theme == s.theme
    ensures r.allUsers == s.allUsers && r.allProviders == s.allProviders
  {
    s.(user := None, isAuthenticated := false, activeBooking := None,
       selectedVan := None, activeJob := None, history := [Welcome])
  }

  function SelectVan(s: State, van: Van): (r: State)
    ensures Inv(s) ==> Inv(r)
    ensures r.selectedVan == Some(van) && r.history == Navigation.Push(s.history, VanDetail)
    ensures r.(selectedVan := s.selectedVan, history := s.history) == s
  {
    s.(selectedVan := Some(van), history := Navigation.Push(s.history, VanDetail))
  }

  /** `createBooking(van)`: without a logged-in user nothing happens;
      otherwise a new open booking of this van by this user replaces the
      active one, its pending job goes to the front of the queue and the
      tracking screen is pushed. */
  function CreateBooking(s: State, van: Van, now: nat): (r: State)
    ensures Inv(s) ==> Inv(r)
    ensures s.user.None? ==> r == s
    ensures s.user.Some? ==>
      && r.activeBooking.Some? && IsOpen(r.activeBooking.value)
      && r.activeBooking.value.id == BookingId(now) && r.activeBooking.value.bookingTime == now
      && r.activeBooking.value.van == van && r.activeBooking.value.user == s.user.value
      && r.incomingJobs == [Job(r.activeBooking.value, Pending)] + s.incomingJobs
      && r.history == Navigation.Push(s.history, Tracking)
      && r.(activeBooking := s.activeBooking, incomingJobs := s.incomingJobs, history := s.history) == s
  {
    match s.user
    case None => s
    case Some(u) =>
      var b := NewBooking(van, u, now);
      s.(activeBooking := Some(b),
         incomingJobs := [Job(b, Pending)] + s.incomingJobs,
         history := Navigation.Push(s.history, Tracking))
  }

  /** `completeBooking()`: a completed copy of the active booking, if any,
      goes to the front of the history, carrying the energy reading and the
      cost of that energy at the van's price; the active slot is emptied and
      the home screen pushed in every case. */
  function CompleteBooking(s: State, kWhCents: int): (r: State)
    requires ValidReading(kWhCents)
    ensures Inv(s) ==> Inv(r)
    ensures r.activeBooking.None? && r.history == Navigation.Push(s.history, Home)
    ensures s.activeBooking.None? ==> r.bookingHistory == s.bookingHistory
    ensures s.activeBooking.Some? ==>
      && |r.bookingHistory| == |s.bookingHistory| + 1
      && r.bookingHistory[1..] == s.bookingHistory
      && var done := r.bookingHistory[0];
      && done.status == Completed
      && done.kWhCharged == Some(KWh(kWhCents))
      && done.finalCost == Some(Cost(KWh(kWhCents), done.van.pricePerKWh))
      && done.(status := s.activeBooking.value.status, kWhCharged := s.activeBooking.value.kWhCharged,
               finalCost := s.activeBooking.value.finalCost) == s.activeBooking.value
    ensures r.(activeBooking := s.activeBooking, bookingHistory := s.bookingHistory, history := s.history) == s
  {
    match s.activeBooking
    case None =>
      s.(history := Navigation.Push(s.history, Home))
    case Some(b) =>
      var done := CompletedCopy(b, kWhCents);
      assert 5.0 <= KWh(kWhCents) <= 15.0;
      s.(bookingHistory := [done] + s.bookingHistory, activeBooking := None,
         history := Navigation.Push(s.history, Home))
  }

  /** `cancelBooking()`: a cancelled copy of the active booking, if any, goes
      to the front of the history and every queued job of that booking is
      withdrawn; the active slot is emptied and the home screen pushed in
      every case. */
  function CancelBooking(s: State): (r: State)
    ensures Inv(s) ==> Inv(r)
    ensures r.activeBooking.None? && r.history == Navigation.Push(s.history, Home)
    ensures s.activeBooking.None? ==> r.bookingHistory == s.bookingHistory && r.incomingJobs == s.incomingJobs
    ensures s.activeBooking.Some? ==>
      && |r.bookingHistory| == |s.bookingHistory| + 1
      && r.bookingHistory[1..] == s.bookingHistory
      && r.bookingHistory[0].status == Cancelled
      && r.bookingHistory[0].(status := s.activeBooking.value.status) == s.activeBooking.value
      && r.incomingJobs == RemoveJobsOf(s.incomingJobs, s.activeBooking.value.id)
    ensures r.(activeBooking := s.activeBooking, bookingHistory := s.bookingHistory,
               incomingJobs := s.incomingJobs, history := s.history) == s
  {
    match s.activeBooking
    case None =>
      s.(history := Navigation.Push(s.history, Home))
    case Some(b) =>
      s.(bookingHistory := [CancelledCopy(b)] + s.bookingHistory,
         incomingJobs := RemoveJobsOf(s.incomingJobs, b.id),
         activeBooking := None,
         history := Navigation.Push(s.history, Home))
  }

  /** `rateBooking(id, rating)`: every history entry with that id carries the
      new rating (replacing an earlier one); nothing else changes. */
  function RateBooking(s: State, bookingId: string, rating: int): (r: State)
    ensures Inv(s) ==> Inv(r)
    ensures |r.bookingHistory| == |s.bookingHistory|
    ensures forall i :: 0 <= i < |s.bookingHistory| ==>
      && r.bookingHistory[i].(userRating := s.bookingHistory[i].userRating) == s.bookingHistory[i]
      && (s.bookingHistory[i].id == bookingId ==> r.bookingHistory[i].userRating == Some(rating))
      && (s.bookingHistory[i].id != bookingId ==> r.bookingHistory[i] == s.bookingHistory[i])
    ensures r.(bookingHistory := s.bookingHistory) == s
  {
    s.(bookingHistory := Rated(s.bookingHistory, bookingId, rating))
  }

  function ToggleAvailability(s: State): (r: State)
    ensures Inv(s) ==> Inv(r)
    ensures r.isAvailable == !s.isAvailable && r.(isAvailable := s.isAvailable) == s
  {
    s.(isAvailable := !s.isAvailable)
  }

  /** `acceptJob(job)`: the job becomes the active one, accepted, and every
      queued job of its booking leaves the queue. */
  function AcceptJob(s: State, job: Job): (r: State)
    ensures Inv(s) ==> Inv(r)
    ensures r.activeJob == Some(job.(status := Accepted))
    ensures r.incomingJobs == RemoveJobsOf(s.incomingJobs, job.booking.id)
    ensures r.(activeJob := s.activeJob, incomingJobs := s.incomingJobs) == s
  {
    s.(activeJob := Some(job.(status := Accepted)),
       incomingJobs := RemoveJobsOf(s.incomingJobs, job.booking.id))
  }

  /** `arriveAtJob()`: the active job, if any, is marked arrived. */
  function ArriveAtJob(s: State): (r: State)
    ensures Inv(s) ==> Inv(r)
    ensures s.activeJob.None? ==> r == s
    ensures s.activeJob.Some? ==> r == s.(activeJob := Some(s.activeJob.value.(status := Arrived)))
  {
    match s.activeJob
    case None => s
    case Some(j) => s.(activeJob := Some(j.(status := Arrived)))
  }

  /** `completeJobForProvider()`: with an active job, the customer-side
      completion runs on the shared active booking and the job slot is
      emptied; without one nothing happens. */
  function CompleteJobForProvider(s: State, kWhCents: int): (r: State)
    requires ValidReading(kWhCents)
    ensures Inv(s) ==> Inv(r)
    ensures s.activeJob.None? ==> r == s
    ensures s.activeJob.Some? ==> r.activeJob.None? && r.(activeJob := None) == CompleteBooking(s, kWhCents).(activeJob := None)
  {
    if s.activeJob.Some? then CompleteBooking(s, kWhCents).(activeJob := None) else s
  }

  /** `addProvider(data)`: the new van goes to the front of the roster. */
  function AddProvider(s: State, data: ProviderData, now: nat, latDraw: real, lngDraw: real): (r: State)
    requires 0.0 <= latDraw < 1.0 && 0.0 <= lngDraw < 1.0
    ensures Inv(s) ==> Inv(r)
    ensures |r.allProviders| == |s.allProviders| + 1 && r.allProviders[1..] == s.allProviders
    ensures r.allProviders[0] == NewProvider(data, now, latDraw, lngDraw)
    ensures r.(allProviders := s.allProviders) == s
  {
    s.(allProviders := [NewProvider(data, now, latDraw, lngDraw)] + s.allProviders)
  }

  /** `updateProvider(van)`: the roster entries with the van's id are
      replaced by it. */
  function UpdateProvider(s: State, van: Van): (r: State)
    ensures Inv(s) ==> Inv(r)
    ensures Ids(r.allProviders) == Ids(s.allProviders)
    ensures forall i :: 0 <= i < |s.allProviders| ==>
      r.allProviders[i] == if s.allProviders[i].id == van.id then van else s.allProviders[i]
    ensures van.id !in Ids(s.allProviders) ==> r == s
    ensures r.(allProviders := s.allProviders) == s
  {
    ReplaceVanKeepsIds(s.allProviders, van);
    ReplaceVanAbsent(s.allProviders, van);
    s.(allProviders := ReplaceVan(s.allProviders, van))
  }

  // ---------------------------------------------------------------------
  // What sequences of actions promise
  // ---------------------------------------------------------------------

  /** Logging in with the administrator's phone lands on the admin dashboard
      as the administrator, whatever role was asked for. */
  lemma AdminLoginIgnoresRole(s: State, role: Role, now: nat)
    ensures Login(s, AdminPhone, role, now).user == Some(AdminUser)
    ensures Login(s, AdminPhone, role, now).history == [AdminDashboard]
    ensures Login(s, AdminPhone, role, now).allUsers == s.allUsers
  {
  }

  /** Logging in with a phone of the roster gives the roster entry, with its
      own role, and adds nobody. */
  lemma KnownPhoneLogin(s: State, phone: string, role: Role, now: nat)
    requires KnownPhone(phone)
    ensures Login(s, phone, role, now).user.value in MockUsers
    ensures Login(s, phone, role, now).allUsers == s.allUsers
  {
  }

  /** Logging out and in again with a phone of the roster gives back the same
      identity, whatever roles and clock readings accompany the two logins. */
  lemma ReloginKnownPhone(s: State, phone: string, role1: Role, role2: Role, t1: nat, t2: nat)
    requires KnownPhone(phone)
    ensures Login(Logout(Login(s, phone, role1, t1)), phone, role2, t2).user
            == Login(s, phone, role1, t1).user
  {
  }

  /** An unknown phone is looked up in the fixed roster only, so every login
      with it makes and appends a new identity: two logins at different
      times leave two different identities with that phone. */
  lemma ReloginUnknownPhone(s: State, phone: string, role: Role, t1: nat, t2: nat)
    requires !KnownPhone(phone)
    ensures
      var s1 := Login(s, phone, role, t1);
      var s2 := Login(Logout(s1), phone, role, t2);
      && s2.allUsers == s.allUsers + [s1.user.value, s2.user.value]
      && s1.user.value.phone == phone && s2.user.value.phone == phone
      && (t1 != t2 ==> s1.user.value != s2.user.value)
  {
    var s1 := Login(s, phone, role, t1);
    var s2 := Login(Logout(s1), phone, role, t2);
    assert s2.allUsers == s.allUsers + [s1.user.value] + [s2.user.value];
    if t1 != t2 && s1.user.value == s2.user.value {
      LabelsInjective("user-", t1, t2);
    }
  }

  /** The customer scenario: a roster customer logs in, books a van and the
      booking completes; the history then holds one completed booking whose
      cost is the energy reading times the van's price. */
  lemma CustomerScenario(theme: Theme, van: Van, t: nat, kWhCents: int)
    requires ValidReading(kWhCents)
    ensures
      var s1 := Login(Initial(theme), "9876543210", USER, t);
      var s2 := CreateBooking(s1, van, t);
      var s3 := CompleteBooking(s2, kWhCents);
      && s1.user == Some(MockCustomerUser) && Navigation.Current(s1.history) == Home
      && s2.activeBooking.Some? && s2.activeBooking.value.status == EnRoute
      && s2.incomingJobs == [Job(s2.activeBooking.value, Pending)]
      && s3.activeBooking.None?
      && |s3.bookingHistory| == 1 && s3.bookingHistory[0].status == Completed
      && s3.bookingHistory[0].finalCost == Some(Cost(KWh(kWhCents), van.pricePerKWh))
  {
    assert FindByPhone(MockUsers, "9876543210") == Some(MockCustomerUser);
    assert ResolveLogin("9876543210", USER, t) == Existing(MockCustomerUser);
    var s1 := Login(Initial(theme), "9876543210", USER, t);
    assert s1.user == Some(MockCustomerUser) && s1.incomingJobs == [] && s1.bookingHistory == [];
    var b := NewBooking(van, MockCustomerUser, t);
    var s2 := CreateBooking(s1, van, t);
    assert s2.activeBooking == Some(b) && s2.bookingHistory == [];
    assert CompleteBooking(s2, kWhCents).bookingHistory == [CompletedCopy(b, kWhCents)];
  }

  /** Cancelling the booking just made withdraws exactly its job: the queue
      is back to what it was, and the history gains one cancelled copy. */
  lemma CreateThenCancel(s: State, van: Van, now: nat)
    requires s.user.Some?
    requires forall j :: j in s.incomingJobs ==> j.booking.id != BookingId(now)
    ensures
      var s2 := CancelBooking(CreateBooking(s, van, now));
      && s2.incomingJobs == s.incomingJobs
      && s2.bookingHistory == [CancelledCopy(NewBooking(van, s.user.value, now))] + s.bookingHistory
      && s2.activeBooking.None?
  {
    var b := NewBooking(van, s.user.value, now);
    RemoveJobsOfAppend([Job(b, Pending)], s.incomingJobs, b.id);
    RemoveJobsOfNone(s.incomingJobs, b.id);
  }

  /** Cancelling a booking with exactly one queued job removes exactly that
      one job and adds exactly one cancelled entry to the history. */
  lemma CancelRemovesOneJob(s: State)
    requires s.activeBooking.Some? && CountJobsOf(s.incomingJobs, s.activeBooking.value.id) == 1
    ensures |CancelBooking(s).incomingJobs| == |s.incomingJobs| - 1
    ensures |CancelBooking(s).bookingHistory| == |s.bookingHistory| + 1
    ensures CancelBooking(s).bookingHistory[0].status == Cancelled
  {
  }

  /** The provider's job runs pending, accepted, arrived and is then gone. */
  lemma JobLifecycle(s: State, job: Job, kWhCents: int)
    requires ValidReading(kWhCents)
    ensures
      var s1 := AcceptJob(s, job);
      var s2 := ArriveAtJob(s1);
      var s3 := CompleteJobForProvider(s2, kWhCents);
      && s1.activeJob == Some(job.(status := Accepted))
      && s2.activeJob == Some(job.(status := Arrived))
      && s3.activeJob.None?
      && (forall j :: j in s3.incomingJobs ==> j.booking.id != job.booking.id)
  {
  }

  /** Adding a van and then editing it under its new id leaves the roster
      with the edited van in front of the old roster: one entry with that
      id, the edited one. */
  lemma AddThenUpdate(s: State, data: ProviderData, now: nat, latDraw: real, lngDraw: real, edited: Van)
    requires 0.0 <= latDraw < 1.0 && 0.0 <= lngDraw < 1.0
    requires edited.id == VanId(now) && VanId(now) !in Ids(s.allProviders)
    ensures UpdateProvider(AddProvider(s, data, now, latDraw, lngDraw), edited).allProviders
            == [edited] + s.allProviders
  {
    var added := AddProvider(s, data, now, latDraw, lngDraw).allProviders;
    assert added == [NewProvider(data, now, latDraw, lngDraw)] + s.allProviders;
    assert added[1..] == s.allProviders;
    ReplaceVanAbsent(s.allProviders, edited);
    assert ReplaceVan(added, edited)[1..] == ReplaceVan(s.allProviders, edited);
  }

  lemma ToggleThemeTwice(s: State)
    ensures ToggleTheme(ToggleTheme(s)) == s
  {
  }
}
