/**
 * The customer sign-in and sign-up form (app/login/page.tsx): one form with
 * two tabs, a name check for sign-up, and one error message at a time.
 */
module LoginPage {
  import opened Wrappers
  import opened Types
  import opened JsString
  import opened Auth

  const BadCredentialsMessage: string := "이메일 또는 비밀번호가 올바르지 않습니다."
  const NameRequiredMessage: string := "이름을 입력해주세요."
  const DuplicateEmailMessage: string := "이미 존재하는 이메일입니다."

  datatype LoginNav = AlreadySignedIn | ToHome | StayOnForm

  /** The blank-name test `!name.trim()`: exactly the names made only of white space. */
  lemma NameGuardIsBlank(name: string)
    ensures (Trim(name) == "") == IsBlank(name)
  {
    TrimEmptyIffBlank(name);
  }

  /** The form's `isLogin` and `error` state. */
  class LoginForm {
    var isLogin: bool
    var error: string

    constructor()
      ensures isLogin && error == ""
    {
      isLogin := true;
      error := "";
    }

    method ShowLoginTab()
      modifies this
      ensures isLogin && error == ""
    {
      isLogin := true;
      error := "";
    }

    method ShowRegisterTab()
      modifies this
      ensures !isLogin && error == ""
    {
      isLogin := false;
      error := "";
    }

    /**
     * A signed-in visitor is sent home before any form is shown. Otherwise the
     * error is cleared and the sign-in or the sign-up runs; a blank name stops
     * a sign-up before register is called. The name is registered untrimmed.
     */
    method Submit(auth: AuthStore, email: string, password: string, name: string, now: nat) returns (nav: LoginNav)
      modifies this, auth
      ensures isLogin == old(isLogin)
      ensures old(auth.isAuthenticated) ==>
        nav == AlreadySignedIn && error == old(error) && auth.users == old(auth.users) && auth.user == old(auth.user)
        && auth.isAuthenticated && auth.isAdmin == old(auth.isAdmin)
      ensures !old(auth.isAuthenticated) && isLogin ==>
        var signedIn := Authenticate(old(auth.users), email, password);
        && auth.users == old(auth.users)
        && (signedIn.Some? ==> nav == ToHome && error == "" && auth.user == signedIn && auth.isAuthenticated
                               && auth.isAdmin == (signedIn.value.role == "admin"))
        && (signedIn.None? ==> nav == StayOnForm && error == BadCredentialsMessage && auth.user == old(auth.user)
                               && auth.isAuthenticated == old(auth.isAuthenticated) && auth.isAdmin == old(auth.isAdmin))
      ensures !old(auth.isAuthenticated) && !isLogin && IsBlank(name) ==>
        nav == StayOnForm && error == NameRequiredMessage && auth.users == old(auth.users) && auth.user == old(auth.user)
        && auth.isAuthenticated == old(auth.isAuthenticated) && auth.isAdmin == old(auth.isAdmin)
      ensures !old(auth.isAuthenticated) && !isLogin && !IsBlank(name) ==>
        var enrolled := Enroll(old(auth.users), email, password, name, now);
        && (enrolled.Some? ==> nav == ToHome && error == "" && Some(auth.users) == enrolled
                               && auth.user == Some(NewUser(email, name, now)) && auth.isAuthenticated && !auth.isAdmin)
        && (enrolled.None? ==> nav == StayOnForm && error == DuplicateEmailMessage && auth.users == old(auth.users)
                               && auth.user == old(auth.user) && auth.isAuthenticated == old(auth.isAuthenticated)
                               && auth.isAdmin == old(auth.isAdmin))
      ensures old(auth.Valid()) ==> auth.Valid()
    {
      if auth.isAuthenticated {
        return AlreadySignedIn;
      }
      error := "";
      if isLogin {
        var success := auth.Login(email, password);
        if success {
          return ToHome;
        } else {
          error := BadCredentialsMessage;
          return StayOnForm;
        }
      } else {
        NameGuardIsBlank(name);
        if Trim(name) == "" {
          error := NameRequiredMessage;
          return StayOnForm;
        }
        var success := auth.Register(email, password, name, now);
        if success {
          return ToHome;
        } else {
          error := DuplicateEmailMessage;
          return StayOnForm;
        }
      }
    }
  }
}
