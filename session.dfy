/**
 * The session store of hooks/useAuth.tsx: the `isAuthenticated` flag of the
 * AuthProvider and its three operations over the device's storage and route.
 * A failing AsyncStorage call is an input of the operation that makes it.
 */
module Session {
  import opened Options
  import opened Device

  /** What `checkAuth` accepts as a session: a truthy `userToken` AND a truthy `userData`. */
  predicate SessionPresent(s: Storage) {
    Has(s, UserTokenKey) && Has(s, UserDataKey)
  }

  const LoginFailedMessage: string := "Login jarayonida xatolik yuz berdi"
  const LogoutFailedMessage: string := "Logout jarayonida xatolik yuz berdi"
  const NoProviderMessage: string := "useAuth must be used within an AuthProvider"

  /** `setItem(key, value)`: `key` now maps to `value` and no other key changes. */
  function SetItem(s: Storage, key: string, value: string): (r: Storage)
    ensures key in r && r[key] == value
    ensures forall k :: k != key ==> (k in r <==> k in s)
    ensures forall k :: k != key && k in s ==> r[k] == s[k]
  {
    s[key := value]
  }

  /** `removeItem(key)`: `key` is gone and no other key changes. */
  function RemoveItem(s: Storage, key: string): (r: Storage)
    ensures key !in r
    ensures forall k :: k != key ==> (k in r <==> k in s)
    ensures forall k :: k != key && k in s ==> r[k] == s[k]
  {
    s - {key}
  }

  class AuthProvider {
    const device: Device
    var isAuthenticated: bool

    /** Mounting the provider: the flag starts false and `checkAuth` runs once. */
    constructor (device: Device, readFails: bool)
      modifies device
      ensures this.device == device
      ensures isAuthenticated == (!readFails && SessionPresent(device.storage))
      ensures device.storage == old(device.storage) && device.alerts == old(device.alerts)
      ensures device.route == if isAuthenticated then old(device.route) else LoginRoute
    {
      this.device := device;
      isAuthenticated := false;
      new;
      CheckAuth(readFails);
    }

    /**
     * `checkAuth`: authenticated exactly when both keys are truthy, and then it
     * does not navigate; otherwise, and whenever a read fails, the flag is
     * false and the route is '/login'. It never writes storage.
     */
    method CheckAuth(readFails: bool)
      modifies this, device
      ensures isAuthenticated == (!readFails && SessionPresent(device.storage))
      ensures device.route == if isAuthenticated then old(device.route) else LoginRoute
      ensures device.storage == old(device.storage) && device.alerts == old(device.alerts)
    {
      if readFails {
        isAuthenticated := false;
        device.Navigate(LoginRoute);
        return;
      }
      var token := GetItem(device.storage, UserTokenKey);
      var userData := GetItem(device.storage, UserDataKey);
      if token.None? || token.value == "" || userData.None? || userData.value == "" {
        isAuthenticated := false;
        device.Navigate(LoginRoute);
        return;
      }
      isAuthenticated := true;
    }

    /**
     * `login(token)`: stores the token under `userToken`, sets the flag and goes
     * to '/(tabs)'. When the write fails, only an alert is shown.
     */
    method Login(token: string, writeFails: bool)
      modifies this, device
      ensures writeFails ==>
        && device.storage == old(device.storage) && isAuthenticated == old(isAuthenticated)
        && device.route == old(device.route)
        && device.alerts == old(device.alerts) + [Notice(LoginFailedMessage)]
      ensures !writeFails ==>
        && device.storage == SetItem(old(device.storage), UserTokenKey, token)
        && isAuthenticated && device.route == TabsRoute && device.alerts == old(device.alerts)
    {
      if writeFails {
        device.Show(Notice(LoginFailedMessage));
        return;
      }
      device.storage := SetItem(device.storage, UserTokenKey, token);
      isAuthenticated := true;
      device.Navigate(TabsRoute);
    }

    /**
     * `logout()`: removes `userToken`, then `userData`, clears the flag and goes
     * to '/login'. `failAt` is the removal that fails (1 or 2), or 0 when none
     * does; a failure stops the sequence there and shows an alert.
     */
    method Logout(failAt: nat)
      modifies this, device
      ensures failAt == 1 ==> device.storage == old(device.storage)
      ensures failAt == 2 ==> device.storage == RemoveItem(old(device.storage), UserTokenKey)
      ensures failAt != 1 && failAt != 2 ==>
        device.storage == RemoveItem(RemoveItem(old(device.storage), UserTokenKey), UserDataKey)
      ensures failAt == 1 || failAt == 2 ==>
        && isAuthenticated == old(isAuthenticated) && device.route == old(device.route)
        && device.alerts == old(device.alerts) + [Notice(LogoutFailedMessage)]
      ensures failAt != 1 && failAt != 2 ==>
        !isAuthenticated && device.route == LoginRoute && device.alerts == old(device.alerts)
    {
      if failAt == 1 {
        device.Show(Notice(LogoutFailedMessage));
        return;
      }
      device.storage := RemoveItem(device.storage, UserTokenKey);
      if failAt == 2 {
        device.Show(Notice(LogoutFailedMessage));
        return;
      }
      device.storage := RemoveItem(device.storage, UserDataKey);
      isAuthenticated := false;
      device.Navigate(LoginRoute);
    }
  }

  /** After `login(T)`, `checkAuth` finds a session exactly when T is not empty and a profile is stored. */
  lemma LoginThenCheckAuth(s: Storage, token: string)
    ensures SessionPresent(SetItem(s, UserTokenKey, token)) <==> token != "" && Has(s, UserDataKey)
  {
  }

  /** After a complete logout no session is found. */
  lemma LogoutThenCheckAuth(s: Storage)
    ensures !SessionPresent(RemoveItem(RemoveItem(s, UserTokenKey), UserDataKey))
  {
  }

  /** `login(T)` really stores T: reading `userToken` back gives T. */
  lemma LoginStoresToken(s: Storage, token: string)
    ensures GetItem(SetItem(s, UserTokenKey, token), UserTokenKey) == Some(token)
  {
  }

  /** The session flag through a login followed by a check, as a caller sees it. */
  method LoginThenCheck(auth: AuthProvider, token: string)
    modifies auth, auth.device
    ensures auth.isAuthenticated == (token != "" && Has(old(auth.device.storage), UserDataKey))
    ensures GetItem(auth.device.storage, UserTokenKey) == Some(token)
  {
    auth.Login(token, false);
    auth.CheckAuth(false);
  }

  /** `useAuth()` either gives the provider's context or throws. */
  datatype Guarded<T> = Provided(context: T) | Throws(message: string)

  /** `useAuth()`: throws exactly when no AuthProvider is above the caller. */
  function UseAuth(context: Option<AuthProvider>): (r: Guarded<AuthProvider>)
    ensures r.Throws? <==> context.None?
    ensures r.Throws? ==> r.message == NoProviderMessage
    ensures r.Provided? ==> r.context == context.value
  {
    match context
    case None => Throws(NoProviderMessage)
    case Some(c) => Provided(c)
  }

  /** The provider a guarded result carries, if any. */
  function ProviderOf(g: Guarded<AuthProvider>): Option<AuthProvider> {
    match g
    case Provided(c) => Some(c)
    case Throws(_) => None
  }

  /**
   * `useAuth()` loses nothing: every caller below a provider shares that very
   * provider (and so one `isAuthenticated` flag), and a caller outside every
   * provider gets no context at all.
   */
  lemma UseAuthRoundTrip(context: Option<AuthProvider>)
    ensures ProviderOf(UseAuth(context)) == context
    ensures ProviderOf(UseAuth(context)).None? ==> UseAuth(context) == Throws(NoProviderMessage)
  {
  }

  /**
   * Reading the store after a write or a removal: the written key reads the
   * new value or null, and every other key reads what it read before.
   */
  lemma ReadAfterWrite(s: Storage, key: string, value: string, other: string)
    ensures GetItem(SetItem(s, key, value), other) == if other == key then Some(value) else GetItem(s, other)
    ensures GetItem(RemoveItem(s, key), other) == if other == key then None else GetItem(s, other)
    ensures Has(SetItem(s, key, value), key) <==> value != ""
  {
  }
}
