/**
 * The dashboard layout: a `mounted` flag set by its first effect, a second
 * effect that sends an unauthenticated visitor to sign in, and the view it
 * renders from the flag and the session status.
 */
module DashboardLayout {
  import opened Wrappers
  import opened UseAuth

  datatype View = LoadingDashboard | Children | PleaseLogIn

  const LoginRedirect: string := "/login?callbackUrl=/dashboard"

  class Layout {
    var mounted: bool

    constructor ()
      ensures !mounted
    {
      mounted := false;
    }

    /** The mount effect. */
    method Mount()
      modifies this
      ensures mounted
    {
      mounted := true;
    }

    /** What is rendered: the loading view until mounted and while the session loads, the children once signed in, the sign-in notice otherwise. */
    function Render(status: SessionStatus): (v: View)
      reads this
      ensures !mounted ==> v == LoadingDashboard
      ensures v == LoadingDashboard <==> !mounted || status == Loading
      ensures v == Children <==> mounted && status == Authenticated
      ensures v == PleaseLogIn <==> mounted && status == Unauthenticated
    {
      if !mounted then LoadingDashboard
      else match status
        case Loading => LoadingDashboard
        case Authenticated => Children
        case Unauthenticated => PleaseLogIn
    }

    /** The `replace` the redirect effect issues, if any. */
    function RedirectEffect(status: SessionStatus): (r: Option<string>)
      reads this
      ensures r.Some? <==> mounted && status == Unauthenticated
      ensures r.Some? ==> r.value == LoginRedirect
    {
      if mounted && status == Unauthenticated then Some(LoginRedirect) else None
    }

    /** The sign-in redirect is issued exactly when the sign-in notice is shown. */
    lemma RedirectWithNotice(status: SessionStatus)
      ensures RedirectEffect(status).Some? <==> Render(status) == PleaseLogIn
    {
    }
  }

  /** A fresh layout shows the loading view and redirects nobody; once mounted, a signed-in visitor sees the dashboard. */
  method FirstRenders(status: SessionStatus) returns (before: View, after: View, redirect: Option<string>)
    ensures before == LoadingDashboard
    ensures after == (if status == Loading then LoadingDashboard else if status == Authenticated then Children else PleaseLogIn)
    ensures redirect.Some? <==> status == Unauthenticated
  {
    var layout := new Layout();
    before := layout.Render(status);
    layout.Mount();
    after := layout.Render(status);
    redirect := layout.RedirectEffect(status);
  }
}
