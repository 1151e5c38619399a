/** The application store: one object whose fields are the session state
    and whose methods are the store's actions, each updating the fields it
    touches one after another. Every method is proved to leave exactly the
    state that the matching function of `Session` computes from the state
    before it, and to keep `Session.Inv`. */
module Store {
  import opened Domain
  import Navigation
  import Session

  class AppStore {
    var history: seq<Screen>
    var isAuthenticated: bool
    var user: Option<User>
    var theme: Theme
    var selectedVan: Option<Van>
    var activeBooking: Option<Booking>
    var bookingHistory: seq<Booking>
    var isAvailable: bool
    var incomingJobs: seq<Job>
    var activeJob: Option<Job>
    var allProviders: seq<Van>
    var allUsers: seq<User>

    /** The fields as one value. */
    function Snapshot(): Session.State
      reads this
    {
      Session.State(history, isAuthenticated, user, theme, selectedVan, activeBooking,
                    bookingHistory, isAvailable, incomingJobs, activeJob, allProviders, allUsers)
    }

    ghost predicate Valid()
      reads this
    {
      Session.Inv(Snapshot())
    }

    /** The store as it starts; the theme is the one read from the stored
        or system preference. */
    constructor (initialTheme: Theme)
      ensures Valid() && Snapshot() == Session.Initial(initialTheme)
    {
      history := [Welcome];
      isAuthenticated := false;
      user := None;
      theme := initialTheme;
      selectedVan := None;
      activeBooking := None;
      bookingHistory := [];
      isAvailable := false;
      incomingJobs := [];
      activeJob := None;
      allProviders := [];
      allUsers := Session.MockUsers;
    }

    /** `currentScreen`. */
    function CurrentScreen(): (s: Screen)
      reads this
      requires Valid()
      ensures s == history[|history| - 1] && s in history
    {
      Navigation.Current(history)
    }

    /** `canGoBack`. */
    function CanGoBack(): (b: bool)
      reads this
      ensures b <==> |history| > 1
    {
      Navigation.CanGoBack(history)
    }

    method ProvidersLoaded(vans: seq<Van>)
      requires Valid()
      modifies this
      ensures Valid() && Snapshot() == Session.ProvidersLoaded(old(Snapshot()), vans)
    {
      allProviders := vans;
    }

    method ToggleTheme()
      requires Valid()
      modifies this
      ensures Valid() && Snapshot() == Session.ToggleTheme(old(Snapshot()))
    {
      theme := if theme == Light then Dark else Light;
    }

    method NavigateTo(screen: Screen)
      requires Valid()
      modifies this
      ensures Valid() && Snapshot() == Session.NavigateTo(old(Snapshot()), screen)
    {
      history := history + [screen];
    }

    method NavigateBack()
      requires Valid()
      modifies this
      ensures Valid() && Snapshot() == Session.NavigateBack(old(Snapshot()))
    {
      if CanGoBack() {
        history := history[..|history| - 1];
      }
    }

    /** `login(phone, role)`, with `now` the clock reading used for the id of
        a new identity. */
    method Login(phone: string, role: Role, now: nat) returns (u: Option<User>)
      requires Valid()
      modifies this
      ensures Valid() && Snapshot() == Session.Login(old(Snapshot()), phone, role, now)
      ensures u == user && u == Session.LoginResult(phone, role, now)
    {
      var found: User;
      if phone == Session.AdminUser.phone {
        found := Session.AdminUser;
      } else {
        var hit := Session.FindByPhone(Session.MockUsers, phone);
        if hit.Some? {
          found := hit.value;
        } else {
          found := User(Session.NewUserId(now), Session.NewUserName, phone, role);
          allUsers := allUsers + [found];
        }
      }
      StartSession(found);
      assert Snapshot() == Session.Login(old(Snapshot()), phone, role, now);
      u := Some(found);
    }

    /** The end of `login`: the identity found is logged in and the history
        restarts at its home screen. */
    method StartSession(found: User)
      modifies this
      ensures Snapshot() == old(Snapshot()).(user := Some(found), isAuthenticated := true,
                                             history := [Session.HomeFor(found.role)])
    {
      user := Some(found);
      isAuthenticated := true;
      history := [Session.HomeFor(found.role)];
    }

    method Logout()
      requires Valid()
      modifies this
      ensures Valid() && Snapshot() == Session.Logout(old(Snapshot()))
    {
      user := None;
      isAuthenticated := false;
      activeBooking := None;
      selectedVan := None;
      activeJob := None;
      history := [Welcome];
    }

    method SelectVan(van: Van)
      requires Valid()
      modifies this
      ensures Valid() && Snapshot() == Session.SelectVan(old(Snapshot()), van)
    {
      selectedVan := Some(van);
      NavigateTo(VanDetail);
    }

    /** `createBooking(van)`, with `now` the clock reading that names the
        booking and stamps its time. */
    method CreateBooking(van: Van, now: nat)
      requires Valid()
      modifies this
      ensures Valid() && Snapshot() == Session.CreateBooking(old(Snapshot()), van, now)
    {
      if user.None? {
        return;
      }
      var booking := Session.NewBooking(van, user.value, now);
      activeBooking := Some(booking);
      incomingJobs := [Job(booking, Pending)] + incomingJobs;
      NavigateTo(Tracking);
    }

    /** `completeBooking()`, with the energy reading in hundredths of a kWh. */
    method CompleteBooking(kWhCents: int)
      requires Valid() && Session.ValidReading(kWhCents)
      modifies this
      ensures Valid() && Snapshot() == Session.CompleteBooking(old(Snapshot()), kWhCents)
    {
      if activeBooking.Some? {
        var completed := Session.CompletedCopy(activeBooking.value, kWhCents);
        bookingHistory := [completed] + bookingHistory;
      }
      activeBooking := None;
      NavigateTo(Home);
    }

    method CancelBooking()
      requires Valid()
      modifies this
      ensures Valid() && Snapshot() == Session.CancelBooking(old(Snapshot()))
    {
      if activeBooking.Some? {
        var cancelled := Session.CancelledCopy(activeBooking.value);
        bookingHistory := [cancelled] + bookingHistory;
        incomingJobs := Session.RemoveJobsOf(incomingJobs, activeBooking.value.id);
      }
      activeBooking := None;
      NavigateTo(Home);
    }

    method RateBooking(bookingId: string, rating: int)
      requires Valid()
      modifies this
      ensures Valid() && Snapshot() == Session.RateBooking(old(Snapshot()), bookingId, rating)
    {
      bookingHistory := Session.Rated(bookingHistory, bookingId, rating);
    }

    method ToggleAvailability()
      requires Valid()
      modifies this
      ensures Valid() && Snapshot() == Session.ToggleAvailability(old(Snapshot()))
    {
      isAvailable := !isAvailable;
    }

    method AcceptJob(job: Job)
      requires Valid()
      modifies this
      ensures Valid() && Snapshot() == Session.AcceptJob(old(Snapshot()), job)
    {
      activeJob := Some(job.(status := Accepted));
      incomingJobs := Session.RemoveJobsOf(incomingJobs, job.booking.id);
    }

    method ArriveAtJob()
      requires Valid()
      modifies this
      ensures Valid() && Snapshot() == Session.ArriveAtJob(old(Snapshot()))
    {
      if activeJob.Some? {
        activeJob := Some(activeJob.value.(status := Arrived));
      }
    }

    method CompleteJobForProvider(kWhCents: int)
      requires Valid() && Session.ValidReading(kWhCents)
      modifies this
      ensures Valid() && Snapshot() == Session.CompleteJobForProvider(old(Snapshot()), kWhCents)
    {
      if activeJob.Some? {
        CompleteBooking(kWhCents);
        activeJob := None;
      }
    }

    /** `addProvider(data)`, with `now` the clock reading that names the van
        and two `Math.random()` draws for its position. */
    method AddProvider(data: ProviderData, now: nat, latDraw: real, lngDraw: real)
      requires Valid() && 0.0 <= latDraw < 1.0 && 0.0 <= lngDraw < 1.0
      modifies this
      ensures Valid() && Snapshot() == Session.AddProvider(old(Snapshot()), data, now, latDraw, lngDraw)
    {
      var van := Session.NewProvider(data, now, latDraw, lngDraw);
      allProviders := [van] + allProviders;
    }

    method UpdateProvider(van: Van)
      requires Valid()
      modifies this
      ensures Valid() && Snapshot() == Session.UpdateProvider(old(Snapshot()), van)
    {
      allProviders := Session.ReplaceVan(allProviders, van);
    }
  }
}
