/**
 * The two login gates: `AuthProvider` of src/hooks/useAuth.ts guards the
 * admin area and `SuperAuthProvider` of src/hooks/useSuperAuth.tsx guards the
 * super-admin area. Both keep `isAuthenticated` and `isLoading` in component
 * state and persist a successful login as the string 'true' under their own
 * `localStorage` key; they differ only in that key and in their hardcoded
 * credentials, so one class with a `Kind` models both.
 *
 * Each handler is specified by a pure function from the old gate state and
 * storage items to the new ones; the lemmas relate those functions (reload
 * after login or logout, idempotence, independence of the two gates).
 */
module Auth {
  import opened Wrappers
  import LocalStorage

  /** Which gate: the admin gate or the super-admin gate. */
  datatype Kind = AdminGate | SuperGate

  /** `AUTH_KEY` of each gate. */
  function AuthKey(k: Kind): string
  {
    match k
    case AdminGate => "hireglance_admin_auth"
    case SuperGate => "hireglance_superadmin_auth"
  }

  /** The hardcoded user name each gate accepts. */
  function Username(k: Kind): string
  {
    match k
    case AdminGate => "admin"
    case SuperGate => "superadmin"
  }

  /** The hardcoded password each gate accepts. */
  function Password(k: Kind): string
  {
    match k
    case AdminGate => "password"
    case SuperGate => "superpassword"
  }

  /** The flag value a successful login stores. */
  const AUTH_FLAG: string := "true"

  /** The two gates use different keys, so each one's flag is its own. */
  lemma KeysDistinct()
    ensures AuthKey(AdminGate) != AuthKey(SuperGate)
  {
    assert AuthKey(AdminGate)[11] != AuthKey(SuperGate)[11];
  }

  /** The credentials check of `login`. */
  predicate Accepts(k: Kind, username: string, password: string)
  {
    username == Username(k) && password == Password(k)
  }

  /** Neither gate accepts the other gate's credentials. */
  lemma CredentialsDisjoint(username: string, password: string)
    ensures !(Accepts(AdminGate, username, password) && Accepts(SuperGate, username, password))
  {
    if Accepts(AdminGate, username, password) {
      assert |username| == 5;
    }
  }

  /** The gate's component state. */
  datatype AuthState = AuthState(isAuthenticated: bool, isLoading: bool)

  /** The state before the load effect runs: loading and not authenticated. */
  function Initial(): (r: AuthState)
    ensures r.isLoading && !r.isAuthenticated
  {
    AuthState(false, true)
  }

  /** The items agree with `items` on every key except `key`. */
  ghost predicate SameExcept(items: map<string, string>, items': map<string, string>, key: string)
  {
    forall k :: k != key ==> LocalStorage.Lookup(items', k) == LocalStorage.Lookup(items, k)
  }

  /**
   * The load effect: authenticated iff the stored value is exactly 'true',
   * and no longer loading.
   */
  function AfterLoad(k: Kind, items: map<string, string>): (r: AuthState)
    ensures !r.isLoading
    ensures r.isAuthenticated <==> AuthKey(k) in items && items[AuthKey(k)] == AUTH_FLAG
  {
    AuthState(LocalStorage.Lookup(items, AuthKey(k)) == Some(AUTH_FLAG), false)
  }

  /** What `login` returns and the state and storage it leaves. */
  datatype LoginResult = LoginResult(ok: bool, state: AuthState, items: map<string, string>)

  /**
   * `login(username, password)`: on the gate's own credentials it stores
   * 'true' under the gate's key, becomes authenticated and returns true;
   * otherwise it returns false and changes nothing.
   */
  function AfterLogin(k: Kind, st: AuthState, items: map<string, string>, username: string, password: string)
    : (r: LoginResult)
    ensures r.ok <==> username == Username(k) && password == Password(k)
    ensures r.ok ==> r.state == st.(isAuthenticated := true)
    ensures r.ok ==> LocalStorage.Lookup(r.items, AuthKey(k)) == Some(AUTH_FLAG)
    ensures SameExcept(items, r.items, AuthKey(k))
    ensures !r.ok ==> r.state == st && r.items == items
  {
    if Accepts(k, username, password) then
      LoginResult(true, st.(isAuthenticated := true), items[AuthKey(k) := AUTH_FLAG])
    else
      LoginResult(false, st, items)
  }

  /** What `logout` leaves. */
  datatype LogoutResult = LogoutResult(state: AuthState, items: map<string, string>)

  /** `logout`: removes the gate's key, and no other, and clears `isAuthenticated`. */
  function AfterLogout(k: Kind, st: AuthState, items: map<string, string>): (r: LogoutResult)
    ensures r.state == st.(isAuthenticated := false)
    ensures AuthKey(k) !in r.items
    ensures SameExcept(items, r.items, AuthKey(k))
  {
    LogoutResult(st.(isAuthenticated := false), items - {AuthKey(k)})
  }

  /** A successful login survives a reload: the load effect finds the flag. */
  lemma LoginPersists(k: Kind, st: AuthState, items: map<string, string>, username: string, password: string)
    requires Accepts(k, username, password)
    ensures AfterLoad(k, AfterLogin(k, st, items, username, password).items).isAuthenticated
  {
  }

  /** A logout survives a reload: the load effect finds no flag. */
  lemma LogoutPersists(k: Kind, st: AuthState, items: map<string, string>)
    ensures !AfterLoad(k, AfterLogout(k, st, items).items).isAuthenticated
  {
  }

  /** Logging in twice with the same credentials is the same as logging in once. */
  lemma LoginIdempotent(k: Kind, st: AuthState, items: map<string, string>, username: string, password: string)
    ensures var once := AfterLogin(k, st, items, username, password);
            var twice := AfterLogin(k, once.state, once.items, username, password);
            twice.ok == once.ok && twice.state == once.state && twice.items == once.items
  {
    var once := AfterLogin(k, st, items, username, password);
    if once.ok {
      assert once.items[AuthKey(k) := AUTH_FLAG] == once.items;
    }
  }

  /** Logging out twice is the same as logging out once. */
  lemma LogoutIdempotent(k: Kind, st: AuthState, items: map<string, string>)
    ensures var once := AfterLogout(k, st, items);
            AfterLogout(k, once.state, once.items) == once
  {
    var once := AfterLogout(k, st, items);
    assert once.items - {AuthKey(k)} == once.items;
  }

  /** The gate other than `k`. */
  function Other(k: Kind): Kind
  {
    match k
    case AdminGate => SuperGate
    case SuperGate => AdminGate
  }

  /**
   * Logging in or out of one gate leaves the other gate's stored flag, and
   * so what the other gate loads, unchanged.
   */
  lemma GatesIndependent(k: Kind, st: AuthState, items: map<string, string>, username: string, password: string)
    ensures AfterLoad(Other(k), AfterLogin(k, st, items, username, password).items) == AfterLoad(Other(k), items)
    ensures AfterLoad(Other(k), AfterLogout(k, st, items).items) == AfterLoad(Other(k), items)
  {
    KeysDistinct();
    assert AuthKey(Other(k)) != AuthKey(k);
  }

  /**
   * One gate's provider. Its state slots are fields; the browser storage it
   * reads and writes is shared with the other gate's provider.
   */
  class AuthProvider {
    const kind: Kind
    const storage: LocalStorage.Storage
    var isAuthenticated: bool
    var isLoading: bool

    /** The state slots as a value. */
    function State(): AuthState
      reads this
    {
      AuthState(isAuthenticated, isLoading)
    }

    /** The provider as first rendered: loading, not authenticated. */
    constructor (kind: Kind, storage: LocalStorage.Storage)
      ensures this.kind == kind && this.storage == storage
      ensures State() == Initial()
    {
      this.kind := kind;
      this.storage := storage;
      isAuthenticated := false;
      isLoading := true;
    }

    /** The load effect, reading the gate's flag from storage. */
    method Load()
      modifies this
      ensures State() == AfterLoad(kind, storage.items)
    {
      var authStatus := storage.GetItem(AuthKey(kind));
      isAuthenticated := authStatus == Some(AUTH_FLAG);
      isLoading := false;
    }

    /** `login(username, password)`. */
    method Login(username: string, password: string) returns (ok: bool)
      modifies this, storage
      ensures var r := AfterLogin(kind, old(State()), old(storage.items), username, password);
              ok == r.ok && State() == r.state && storage.items == r.items
    {
      if username == Username(kind) && password == Password(kind) {
        storage.SetItem(AuthKey(kind), AUTH_FLAG);
        isAuthenticated := true;
        return true;
      }
      return false;
    }

    /** `logout`. */
    method Logout()
      modifies this, storage
      ensures var r := AfterLogout(kind, old(State()), old(storage.items));
              State() == r.state && storage.items == r.items
    {
      storage.RemoveItem(AuthKey(kind));
      isAuthenticated := false;
    }
  }

  /**
   * Both gates over one storage area: a wrong password is refused, the right
   * one logs the admin in and survives a reload, and the super-admin gate is
   * unaffected until its own login.
   */
  method GatesScenario()
  {
    var storage := new LocalStorage.Storage();
    var admin := new AuthProvider(AdminGate, storage);
    var superGate := new AuthProvider(SuperGate, storage);
    admin.Load();
    superGate.Load();
    assert !admin.isAuthenticated && !admin.isLoading && !superGate.isAuthenticated;
    var ok := admin.Login("admin", "wrong");
    assert !ok && !admin.isAuthenticated && storage.items == map[];
    ok := admin.Login("admin", "password");
    assert ok && admin.isAuthenticated;
    KeysDistinct();
    var reloaded := new AuthProvider(AdminGate, storage);
    reloaded.Load();
    assert reloaded.isAuthenticated;
    superGate.Load();
    assert !superGate.isAuthenticated;
    ok := superGate.Login("admin", "password");
    assert !ok;
    ok := superGate.Login("superadmin", "superpassword");
    assert ok && superGate.isAuthenticated;
    admin.Logout();
    reloaded.Load();
    assert !reloaded.isAuthenticated;
    superGate.Load();
    assert superGate.isAuthenticated;
  }
}
