/**
 * The administrator sign-in form (app/admin/login/page.tsx): sign in, then
 * keep the session only if it is an administrator's.
 */
module AdminLoginPage {
  import opened Wrappers
  import opened Types
  import opened Auth

  const BadCredentialsMessage: string := "이메일 또는 비밀번호가 올바르지 않습니다."
  const NoAdminRightsMessage: string := "관리자 권한이 없습니다."

  datatype AdminNav = Redirected | ToAdmin | StayOnForm

  /** The form's `error` state. */
  class AdminLoginForm {
    var error: string

    constructor()
      ensures error == ""
    {
      error := "";
    }

    /**
     * A signed-in administrator is sent on before any form is shown. Otherwise:
     * bad credentials leave the session as it was; an administrator's
     * credentials sign in; anyone else's sign in and are signed out again.
     */
    method Submit(auth: AuthStore, email: string, password: string) returns (nav: AdminNav)
      modifies this, auth
      ensures old(AdminView(auth.isAuthenticated, auth.isAdmin)) ==>
        nav == Redirected && error == old(error) && auth.user == old(auth.user)
        && auth.isAuthenticated == old(auth.isAuthenticated) && auth.isAdmin == old(auth.isAdmin)
      ensures !old(AdminView(auth.isAuthenticated, auth.isAdmin)) ==>
        var signedIn := Authenticate(old(auth.users), email, password);
        && (signedIn.None? ==> nav == StayOnForm && error == BadCredentialsMessage && auth.user == old(auth.user)
                               && auth.isAuthenticated == old(auth.isAuthenticated) && auth.isAdmin == old(auth.isAdmin))
        && (signedIn.Some? && signedIn.value.role == "admin" ==>
              nav == ToAdmin && error == "" && auth.user == signedIn && auth.isAuthenticated && auth.isAdmin)
        && (signedIn.Some? && signedIn.value.role != "admin" ==>
              nav == StayOnForm && error == NoAdminRightsMessage && auth.user.None? && !auth.isAuthenticated && !auth.isAdmin)
      ensures auth.users == old(auth.users)
      ensures old(auth.Valid()) ==> auth.Valid()
    {
      if auth.isAuthenticated && auth.isAdmin {
        return Redirected;
      }
      error := "";
      var success := auth.Login(email, password);
      if success {
        var adminCheck := auth.isAdmin;
        if adminCheck {
          return ToAdmin;
        } else {
          error := NoAdminRightsMessage;
          auth.Logout();
          return StayOnForm;
        }
      } else {
        error := BadCredentialsMessage;
        return StayOnForm;
      }
    }
  }
}
