/**
 * What the client keeps on the device: the AsyncStorage key/value map, the
 * route the router is showing, and the alerts shown so far (their wording is
 * kept, their presentation is not).
 */
module Device {
  import opened Options

  /** The storage keys the client reads and writes. */
  const UserTokenKey: string := "userToken"
  const UserDataKey: string := "userData"
  /** The key that the sign-up screen writes and the bookings and contracts calls read. */
  const TokenKey: string := "token"

  type Storage = map<string, string>

  /** `getItem(key)` resolves to a truthy string: present and not empty. */
  predicate Has(storage: Storage, key: string) {
    key in storage && storage[key] != ""
  }

  /** `getItem(key)`: the stored string, or `null`. */
  function GetItem(storage: Storage, key: string): (r: Option<string>)
    ensures r.Some? <==> key in storage
    ensures r.Some? ==> r.value == storage[key]
  {
    if key in storage then Some(storage[key]) else None
  }

  /** The parameters the rent screen passes to the payment screen. Dates stay timestamps. */
  datatype PaymentParams = PaymentParams(
    carId: string,
    totalDays: string,
    pricePerDay: string,
    phoneNumber: string,
    note: string,
    startDate: int,
    endDate: int)

  datatype Route =
    | LoginRoute                         // '/login'
    | TabsRoute                          // '/(tabs)'
    | PaymentRoute(params: PaymentParams) // '/payment' with its parameters
    | OtherRoute(path: string)           // any screen the modelled code does not navigate to

  datatype Alert =
    | Notice(message: string)                                   // `alert(message)`
    | Dialog(title: string, message: string, onOk: Option<Route>) // `Alert.alert`; `onOk` is where its OK button goes

  class Device {
    var storage: Storage
    var route: Route
    var alerts: seq<Alert>

    constructor (storage: Storage, route: Route)
      ensures this.storage == storage && this.route == route && alerts == []
    {
      this.storage := storage;
      this.route := route;
      alerts := [];
    }

    /** `alert(message)` or `Alert.alert(...)`: the alert is shown after the earlier ones. */
    method Show(a: Alert)
      modifies this
      ensures alerts == old(alerts) + [a]
      ensures storage == old(storage) && route == old(route)
    {
      alerts := alerts + [a];
    }

    /** `router.replace(r)` or `router.push(r)`: the history stack is not modelled. */
    method Navigate(r: Route)
      modifies this
      ensures route == r
      ensures storage == old(storage) && alerts == old(alerts)
    {
      route := r;
    }
  }
}
