/** The staff login page: the credential exchange and the one rule that
    navigates, "a session is present, go to the dashboard". */
module AdminLogin {
  import opened Service

  const IncompleteToast := Toast("Form tidak lengkap", "Mohon masukkan email dan password", true)
  const SuccessToast := Toast("Login Berhasil", "Selamat datang di Admin Dashboard", false)
  const FailureToast := Toast("Login Gagal", "Email atau password salah. Silakan coba lagi.", true)

  /** Where a session observation sends the page: the dashboard when a
      session is present, nowhere otherwise. Used by both the mount check
      and the auth listener. */
  function SessionRedirect(hasSession: bool): (target: Option<string>)
    ensures target.Some? <==> hasSession
    ensures target.Some? ==> target.value == DashboardPath
  {
    if hasSession then Some(DashboardPath) else None
  }

  /** The toast for the sign-in's answer: every error, whatever its code or
      message, gives the same failure toast. */
  function SignInToast(reply: Reply): (t: Toast)
    ensures t == FailureToast <==> reply.Failed?
    ensures t == SuccessToast <==> reply.Done?
  {
    if reply.Done? then SuccessToast else FailureToast
  }

  datatype Credentials = Credentials(email: string, password: string)

  class Page {
    var email: string
    var password: string
    var isLoading: bool
    /** The last `navigate` target, `None` while the page has not navigated. */
    var route: Option<string>

    constructor ()
      ensures email == "" && password == "" && !isLoading && route == None
    {
      email, password := "", "";
      isLoading := false;
      route := None;
    }

    /** Applies `SessionRedirect` to the page's route. */
    method ObserveSession(hasSession: bool)
      modifies this`route
      ensures route == if hasSession then SessionRedirect(hasSession) else old(route)
    {
      var target := SessionRedirect(hasSession);
      if target.Some? {
        route := target;
      }
    }

    /** The mount effect's `checkSession`. */
    method CheckSession(hasSession: bool)
      modifies this`route
      ensures route == if hasSession then Some(DashboardPath) else old(route)
    {
      ObserveSession(hasSession);
    }

    /** The auth listener. */
    method OnAuthStateChange(hasSession: bool)
      modifies this`route
      ensures route == if hasSession then Some(DashboardPath) else old(route)
    {
      ObserveSession(hasSession);
    }

    /** `handleSubmit`: empty fields are rejected before any sign-in; otherwise
        the sign-in runs with the loading flag raised, every error gives the
        same failure toast, the flag is released, and the page does not
        navigate (the auth listener does that). */
    method HandleSubmit(reply: Reply)
      returns (signIn: Option<Credentials>, loadingDuringSignIn: bool, toast: Toast)
      modifies this`isLoading
      ensures signIn.Some? <==> email != "" && password != ""
      ensures signIn.None? ==> toast == IncompleteToast && isLoading == old(isLoading)
      ensures signIn.Some? ==>
        && signIn.value == Credentials(email, password)
        && loadingDuringSignIn && !isLoading
        && toast == SignInToast(reply)
    {
      loadingDuringSignIn := false;
      if email == "" || password == "" {
        return None, loadingDuringSignIn, IncompleteToast;
      }
      isLoading := true;
      signIn := Some(Credentials(email, password));
      loadingDuringSignIn := isLoading;
      toast := SignInToast(reply);
      isLoading := false;
    }
  }
}
