/** The entities of the charging-dispatch app: roles, identities, vans,
    bookings, jobs, screens and the colour theme. Every string-valued union of
    the app becomes a closed datatype. */
module Domain {

  datatype Option<+T> = None | Some(value: T)

  datatype Role = USER | PROVIDER | ADMIN

  /** The logged-in actor. */
  datatype User = User(id: string, name: string, phone: string, role: Role)

  datatype VanStatus = Approved | PendingApproval

  /** A charging van offered by a partner. Prices and ratings are exact
      reals; the position is kept as two reals that nothing reads back. */
  datatype Van = Van(
    id: string,
    partnerName: string,
    vanModel: string,
    rating: real,
    etaMinutes: int,
    pricePerKWh: real,
    capacityKWh: int,
    lat: real,
    lng: real,
    status: Option<VanStatus>)

  /** The fields an administrator types in for a new van: a van without its
      id, position and rating. */
  datatype ProviderData = ProviderData(
    partnerName: string,
    vanModel: string,
    etaMinutes: int,
    pricePerKWh: real,
    capacityKWh: int,
    status: Option<VanStatus>)

  datatype BookingStatus = EnRoute | Charging | Completed | Cancelled

  /** One charging engagement. The van is a copy taken when the booking was
      made; `bookingTime` is the clock reading (milliseconds) at creation. */
  datatype Booking = Booking(
    id: string,
    van: Van,
    bookingTime: nat,
    status: BookingStatus,
    kWhCharged: Option<real>,
    finalCost: Option<real>,
    userRating: Option<int>,
    user: User)

  datatype JobStatus = Pending | Accepted | Arrived | JobCompleted

  /** The provider-side mirror of a booking. */
  datatype Job = Job(booking: Booking, status: JobStatus)

  /** Screen identifiers; `Tracking` is the app's `Screen.Booking`
      (renamed so that it does not clash with the `Booking` record). */
  datatype Screen =
    | Welcome | SignIn | SignUp | Home | ProviderList | VanDetail | Tracking
    | History | Profile | AccountSettings
    | ProviderDashboard | ProviderProfile
    | AdminDashboard | AdminProviders | AdminUsers | AdminProfile

  datatype Theme = Light | Dark
}
