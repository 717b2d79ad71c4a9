/**
 * The application shell (`App.tsx`): it restores a saved session at start-up and
 * switches between the login, registration and stock-out screens.
 */
module App {
  import opened Wrappers
  import opened Records
  import opened Storage

  /** The three states of `currentScreen`. */
  datatype Page = LoginPage | RegisterPage | MainPage

  /** What the shell shows. */
  datatype View = LoginView | RegisterView | MainView(user: User)

  /** The render function: nothing while the session is being restored, otherwise the
      screen of the current page, where the stock-out screen also needs a user. */
  function Render(loading: bool, page: Page, user: Option<User>): (v: Option<View>)
    ensures v.None? <==> loading || (page == MainPage && user.None?)
    ensures v.Some? && v.value.MainView? ==> page == MainPage && user == Some(v.value.user)
    ensures v == Some(LoginView) <==> !loading && page == LoginPage
    ensures v == Some(RegisterView) <==> !loading && page == RegisterPage
  {
    if loading then None
    else match page
      case LoginPage => Some(LoginView)
      case RegisterPage => Some(RegisterView)
      case MainPage => if user.Some? then Some(MainView(user.value)) else None
  }

  /** The shell's invariant: the stock-out page is only ever current with a user. */
  predicate Consistent(page: Page, user: Option<User>) {
    page == MainPage ==> user.Some?
  }

  /** Under that invariant the shell never renders an empty screen once loaded. */
  lemma ConsistentNeverBlank(page: Page, user: Option<User>)
    requires Consistent(page, user)
    ensures Render(false, page, user).Some?
    ensures Render(false, page, user) == Some(LoginView) || Render(false, page, user) == Some(RegisterView)
      || Render(false, page, user) == Some(MainView(user.value))
  {
  }

  class App {
    const store: Store
    var currentScreen: Page
    var user: Option<User>
    var loading: bool

    predicate Valid()
      reads this
    {
      Consistent(currentScreen, user)
    }

    constructor (store: Store)
      ensures this.store == store && currentScreen == LoginPage && user == None && loading
      ensures Valid()
    {
      this.store := store;
      currentScreen := LoginPage;
      user := None;
      loading := true;
    }

    /** What the shell shows now. */
    function Shown(): (v: Option<View>)
      reads this
      ensures Valid() && !loading ==> v.Some?
      ensures v.Some? && v.value.MainView? ==> user == Some(v.value.user)
    {
      Render(loading, currentScreen, user)
    }

    /** `checkLoginStatus`, run once at start-up: a saved session opens the stock-out
        screen with that user; either way loading ends. */
    method CheckLoginStatus()
      requires Valid()
      modifies this`user, this`currentScreen, this`loading
      ensures store.userDataLogin.Some? ==> user == store.userDataLogin && currentScreen == MainPage
      ensures store.userDataLogin.None? ==> user == old(user) && currentScreen == old(currentScreen)
      ensures !loading && Valid()
    {
      var userData := store.userDataLogin;
      if userData.Some? {
        user := userData;
        currentScreen := MainPage;
      }
      loading := false;
    }

    /** `handleLogin`, called by the login screen with the new session. */
    method HandleLogin(userData: User)
      modifies this`user, this`currentScreen
      ensures user == Some(userData) && currentScreen == MainPage && Valid()
    {
      user := Some(userData);
      currentScreen := MainPage;
    }

    /** `handleLogout`: forget the saved session and return to the login screen. The
        pending scans stay in the cache. */
    method HandleLogout()
      modifies this`user, this`currentScreen, store`userDataLogin
      ensures store.userDataLogin == None && user == None && currentScreen == LoginPage && Valid()
      ensures store.stockOutData == old(store.stockOutData)
    {
      store.userDataLogin := None;
      user := None;
      currentScreen := LoginPage;
    }

    /** `handleRegister`: open the registration screen. */
    method HandleRegister()
      modifies this`currentScreen
      ensures currentScreen == RegisterPage && user == old(user) && Valid()
    {
      currentScreen := RegisterPage;
    }

    /** `handleBackToLogin`. */
    method HandleBackToLogin()
      modifies this`currentScreen
      ensures currentScreen == LoginPage && user == old(user) && Valid()
    {
      currentScreen := LoginPage;
    }

    /** `handleRegistrationSuccess`: a registration or role update returns to the login
        screen; it does not log anybody in. */
    method HandleRegistrationSuccess()
      modifies this`currentScreen
      ensures currentScreen == LoginPage && user == old(user) && Valid()
    {
      currentScreen := LoginPage;
    }
  }
}
