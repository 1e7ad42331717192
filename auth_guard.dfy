/** The route guard in front of the task views. */
module AuthGuard {
  import opened Results
  import Auth

  /** How the `isAuthenticated` call settled. */
  datatype Check = Resolved(authenticated: bool) | Threw

  /** What `canActivate` returns, with the navigation it asks the router for. */
  datatype Decision = Decision(allow: bool, navigate: Option<seq<string>>)

  /** `canActivate`: allow exactly when the check resolves true; in every
      other case, a thrown check included, redirect to ['/login'] and deny;
      an allowed navigation requests no redirect. */
  function CanActivate(check: Check): (d: Decision)
    ensures d.allow <==> check == Resolved(true)
    ensures d.allow ==> d.navigate == None
    ensures !d.allow ==> d.navigate == Some(["/login"])
  {
    match check
    case Resolved(isAuthenticated) =>
      if isAuthenticated then Decision(true, None) else Decision(false, Some(["/login"]))
    case Threw => Decision(false, Some(["/login"]))
  }

  /** Guarding with the session service's own check: access is allowed iff the
      provider's current-user lookup succeeds, since that check never throws. */
  lemma GuardFollowsLookup(lookup: Auth.SdkResult<Auth.AuthUser>)
    ensures CanActivate(Resolved(Auth.IsAuthenticated(lookup))).allow <==> lookup.SdkOk?
    ensures !lookup.SdkOk? ==> CanActivate(Resolved(Auth.IsAuthenticated(lookup))).navigate == Some(["/login"])
  {
  }
}
