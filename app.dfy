/** The application shell: whether the dashboard or the login screen is
    shown, restored from the stored token at startup. */
module App {
  import opened Common
  import opened Browser
  import opened Api

  class App {
    const storage: LocalStorage
    var isAuthenticated: bool

    /** The flag starts false, whatever is stored. */
    constructor (storage: LocalStorage)
      ensures this.storage == storage && !isAuthenticated
    {
      this.storage := storage;
      isAuthenticated := false;
    }

    /** The startup effect: a stored, non-empty token signs the user in;
        otherwise the flag is left as it is. */
    method Startup()
      modifies this
      ensures isAuthenticated == (old(isAuthenticated) || Truthy(storage.GetItem(TokenKey)))
    {
      var auth := storage.GetItem(TokenKey);
      if Truthy(auth) {
        isAuthenticated := true;
      }
    }

    /** `handleLogin`: signed in, without looking at the storage. */
    method HandleLogin()
      modifies this
      ensures isAuthenticated
    {
      isAuthenticated := true;
    }

    /** `handleLogout`: the whole storage is cleared and the flag reset. */
    method HandleLogout()
      modifies this, storage
      ensures !isAuthenticated && storage.items == map[]
    {
      storage.Clear();
      isAuthenticated := false;
    }
  }

  /** Opening the application on a storage: the dashboard is shown exactly
      when a non-empty token is stored. */
  method Open(items: map<string, string>) returns (authenticated: bool)
    ensures authenticated <==> TokenKey in items && items[TokenKey] != ""
  {
    var storage := new LocalStorage(items);
    var app := new App(storage);
    app.Startup();
    authenticated := app.isAuthenticated;
  }

  /** A successful login followed by a reload: the user stays signed in
      exactly when the response carried (or the storage already held) a
      non-empty token. */
  method LoginThenReload(items: map<string, string>, data: Body) returns (before: bool, after: bool)
    ensures before
    ensures after <==> Truthy(data.accessToken) || (TokenKey in items && items[TokenKey] != "")
  {
    var storage := new LocalStorage(items);
    var app := new App(storage);
    app.Startup();
    CaptureLoginToken(storage, data);
    app.HandleLogin();
    before := app.isAuthenticated;
    var reloaded := new App(storage);
    reloaded.Startup();
    after := reloaded.isAuthenticated;
  }

  /** Logging out and reloading shows the login screen, and no key of any
      kind survives. */
  method LogoutThenReload(items: map<string, string>) returns (after: bool, remaining: map<string, string>)
    ensures !after && remaining == map[]
  {
    var storage := new LocalStorage(items);
    var app := new App(storage);
    app.Startup();
    app.HandleLogout();
    var reloaded := new App(storage);
    reloaded.Startup();
    after, remaining := reloaded.isAuthenticated, storage.items;
  }

  /** A 401 without a backend message or error signs the next start out;
      a 401 carrying a message leaves the token, so the next start is
      still signed in. */
  method UnauthorizedThenReload(token: string, error: HttpError) returns (after: bool)
    requires token != ""
    requires error.response.Some? && error.response.value.status == 401
    ensures after <==> HasMessage(error) || HasError(error)
  {
    var storage := new LocalStorage(map[TokenKey := token]);
    var transport := new Transport(storage);
    var _ := transport.InterceptError(error);
    var reloaded := new App(storage);
    reloaded.Startup();
    after := reloaded.isAuthenticated;
  }
}
