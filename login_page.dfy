/**
 * The login page: `handleLogin` logs in without a requested role and sends the user
 * to the dashboard of the role found in storage; `handleRegister` only shows a toast.
 * Router navigation is the returned route; the register timer is one atomic step.
 */
module Login {
  import opened Wrappers
  import opened Auth
  import opened Toasts

  /**
   * The dashboard for the role read back from storage (`JSON.parse(... || "{}")`, so a
   * missing record has no role): admin and business have their own, anything else the user one.
   */
  function DashboardFor(storedRole: Option<Role>): (route: string)
    ensures storedRole.Some? ==> route == "/dashboard/" + RoleName(storedRole.value)
    ensures storedRole.None? ==> route == "/dashboard/user"
  {
    if storedRole == Some(AdminRole) then "/dashboard/admin"
    else if storedRole == Some(BusinessRole) then "/dashboard/business"
    else "/dashboard/user"
  }

  const WelcomeToast: ToastRequest := Titled("Welcome back! \U{1F389}", "Successfully logged in to Help")
  const FailedToast: ToastRequest := Titled("Login Failed", "Invalid credentials. Please try again.")
  const RegisteredToast: ToastRequest := Titled("Account created! \U{1F389}", "Welcome to the Help community")

  /** The login form's own state. */
  class LoginPage {
    var isLoading: bool
    var showPassword: bool

    constructor ()
      ensures !isLoading && !showPassword
    {
      isLoading := false;
      showPassword := false;
    }

    /**
     * `handleLogin`: on success a welcome toast and the dashboard of the account's role;
     * on failure a "Login Failed" toast and no navigation.
     */
    method HandleLogin(auth: AuthProvider, toasts: ToastProvider, email: string, password: string, toastId: string)
      returns (route: Option<string>)
      modifies this, auth, toasts
      ensures route.Some? <==> Authenticate(email, password, None).Some?
      ensures route.Some? ==> route.value == "/dashboard/" + RoleName(MockUsers[email].role)
      ensures route.Some? ==> auth.user == Some(MockUsers[email])
      ensures route.None? ==> auth.user == old(auth.user) && auth.storage == old(auth.storage)
      ensures toasts.toasts == old(toasts.toasts) + [WithId(if route.Some? then WelcomeToast else FailedToast, toastId)]
      ensures !isLoading && showPassword == old(showPassword)
    {
      isLoading := true;
      var success := auth.Login(email, password, None);
      if success {
        toasts.Toast(WelcomeToast, toastId);
        var stored := if StorageKey in auth.storage then Some(auth.storage[StorageKey].role) else None;
        route := Some(DashboardFor(stored));
      } else {
        toasts.Toast(FailedToast, toastId);
        route := None;
      }
      isLoading := false;
    }

    /** `handleRegister`: after the simulated delay, loading ends with a toast; nobody is logged in. */
    method HandleRegister(toasts: ToastProvider, toastId: string)
      modifies this, toasts
      ensures toasts.toasts == old(toasts.toasts) + [WithId(RegisteredToast, toastId)]
      ensures !isLoading && showPassword == old(showPassword)
    {
      isLoading := true;
      isLoading := false;
      toasts.Toast(RegisteredToast, toastId);
    }
  }
}
