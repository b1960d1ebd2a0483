/** The login and registration pages: the client-side email rule they share,
    the checks their submit handlers make before calling the context, the
    error texts they show and where they send an authenticated visitor. */
module AuthPages {
  import opened Js
  import opened AuthContext

  /** A character of the class `[^\s@]`. */
  predicate Plain(c: char)
  {
    !IsSpace(c) && c != '@'
  }

  predicate AllPlain(s: string)
  {
    forall k :: 0 <= k < |s| ==> Plain(s[k])
  }

  /** `/^[^\s@]+@[^\s@]+\.[^\s@]+$/.test(s)`, read literally: three non-empty
      runs of plain characters, the first two separated by "@", the last two
      by ".". */
  predicate MatchesEmailPattern(s: string)
  {
    exists i, j :: 0 < i && i + 1 < j && j + 1 < |s| && s[i] == '@' && s[j] == '.'
                   && AllPlain(s[..i]) && AllPlain(s[i + 1..j]) && AllPlain(s[j + 1..])
  }

  predicate NoSpace(s: string)
  {
    forall k :: 0 <= k < |s| ==> !IsSpace(s[k])
  }

  /** `s[i]` is the only "@" in `s`. */
  predicate OnlyAt(s: string, i: int)
  {
    0 <= i < |s| && s[i] == '@' && forall k :: 0 <= k < |s| && k != i ==> s[k] != '@'
  }

  /** The same rule in other words: no whitespace, exactly one "@" with
      something before it, and after it a "." that is neither the first nor
      the last character. */
  predicate WellShapedEmail(s: string)
  {
    NoSpace(s) && exists i :: 0 < i < |s| && OnlyAt(s, i) && exists j :: i + 1 < j < |s| - 1 && s[j] == '.'
  }

  /** `AllPlain` of a slice, index by index. */
  lemma {:induction false} PlainSlice(s: string, a: int, b: int)
    requires 0 <= a <= b <= |s|
    ensures AllPlain(s[a..b]) <==> forall k :: a <= k < b ==> Plain(s[k])
  {
    assert forall k :: a <= k < b ==> s[a..b][k - a] == s[k];
  }

  lemma {:induction false} PatternIsWellShaped(s: string)
    requires MatchesEmailPattern(s)
    ensures WellShapedEmail(s)
  {
    var i, j :| 0 < i && i + 1 < j && j + 1 < |s| && s[i] == '@' && s[j] == '.'
                && AllPlain(s[..i]) && AllPlain(s[i + 1..j]) && AllPlain(s[j + 1..]);
    PlainSlice(s, 0, i);
    PlainSlice(s, i + 1, j);
    PlainSlice(s, j + 1, |s|);
    assert s[..i] == s[0..i] && s[j + 1..] == s[j + 1..|s|];
    assert forall k :: 0 <= k < |s| && k != i && k != j ==> Plain(s[k]);
    assert OnlyAt(s, i);
  }

  lemma {:induction false} WellShapedIsPattern(s: string)
    requires WellShapedEmail(s)
    ensures MatchesEmailPattern(s)
  {
    var i :| 0 < i < |s| && OnlyAt(s, i) && exists j :: i + 1 < j < |s| - 1 && s[j] == '.';
    var j :| i + 1 < j < |s| - 1 && s[j] == '.';
    assert forall k :: 0 <= k < |s| && k != i ==> Plain(s[k]);
    PlainSlice(s, 0, i);
    PlainSlice(s, i + 1, j);
    PlainSlice(s, j + 1, |s|);
    assert s[..i] == s[0..i] && s[j + 1..] == s[j + 1..|s|];
  }

  lemma EmailPatternIff(s: string)
    ensures MatchesEmailPattern(s) <==> WellShapedEmail(s)
  {
    if MatchesEmailPattern(s) {
      PatternIsWellShaped(s);
    }
    if WellShapedEmail(s) {
      WellShapedIsPattern(s);
    }
  }

  /** `validateEmail`, the same on both pages: "" when the email is accepted. */
  function ValidateEmail(email: string): (msg: string)
    ensures email == "" ==> msg == "Email is required"
    ensures msg == "" <==> WellShapedEmail(email)
    ensures email != "" && msg != "" ==> msg == "Please enter a valid email address"
  {
    EmailPatternIff(email);
    if email == "" then "Email is required"
    else if !MatchesEmailPattern(email) then "Please enter a valid email address"
    else ""
  }

  /** An ordinary address is accepted. */
  lemma PlainAddressAccepted()
    ensures ValidateEmail("ann@x.com") == ""
  {
    var s := "ann@x.com";
    assert s[3] == '@' && s[5] == '.';
    assert AllPlain(s[..3]) && AllPlain(s[4..5]) && AllPlain(s[6..]);
  }

  /** A second "@" is refused. */
  lemma SecondAtRefused()
    ensures ValidateEmail("a@b@c.d") == "Please enter a valid email address"
  {
    var t := "a@b@c.d";
    EmailPatternIff(t);
    assert t[1] == '@' && t[3] == '@';
  }

  /** `(location.state as any)?.from?.pathname || '/events'`. */
  function RedirectTarget(from: Option<string>): (path: string)
    ensures Present(from) ==> path == from.value
    ensures !Present(from) ==> path == "/events"
  {
    if Present(from) then from.value else "/events"
  }

  /** The effect both pages run: an authenticated visitor is sent on. */
  function AfterAuth(auth: AuthState, from: Option<string>): (to: Option<string>)
    ensures to.Some? <==> auth.IsAuthenticated()
    ensures to.Some? ==> to.value == RedirectTarget(from)
  {
    if auth.IsAuthenticated() then Some(RedirectTarget(from)) else None
  }

  /** The login page's message for a failed login. */
  function LoginErrorMessage(status: Option<int>): (msg: string)
    ensures status == Some(400) ==> msg == "Invalid email or password"
    ensures status == Some(404) ==> msg == "Account not found. Please check your email or register."
    ensures status != Some(400) && status != Some(404) ==> msg == "An error occurred during login. Please try again."
  {
    if status == Some(400) then "Invalid email or password"
    else if status == Some(404) then "Account not found. Please check your email or register."
    else "An error occurred during login. Please try again."
  }

  /** `err.response?.data?.msg || 'An error occurred during registration'`. */
  function RegisterErrorMessage(f: Failure): (msg: string)
    ensures f.RequestFailed? && Present(f.msg) ==> msg == f.msg.value
    ensures !(f.RequestFailed? && Present(f.msg)) ==> msg == "An error occurred during registration"
  {
    if f.RequestFailed? && Present(f.msg) then f.msg.value else "An error occurred during registration"
  }

  /** `err.response?.status` of what the context threw. */
  function StatusOf(f: Failure): Option<int>
  {
    if f.RequestFailed? then f.status else None
  }

  datatype LoginField = LoginEmail | LoginPassword

  class LoginPage {
    var email: string
    var password: string
    var error: string
    var emailError: string
    var isLoading: bool

    constructor ()
      ensures email == "" && password == "" && error == "" && emailError == "" && !isLoading
    {
      email, password, error, emailError, isLoading := "", "", "", "", false;
    }

    /** `disabled={isLoading || !!emailError}` on the submit button. */
    predicate CanSubmit()
      reads this
    {
      !isLoading && emailError == ""
    }

    /** `handleChange`: the email is checked as it is typed, and the submit
        button follows that check. */
    method Change(field: LoginField, value: string)
      modifies this`email, this`password, this`emailError
      ensures field == LoginEmail ==> email == value && emailError == ValidateEmail(value) && password == old(password)
      ensures field == LoginPassword ==> password == value && email == old(email) && emailError == old(emailError)
      ensures field == LoginEmail ==> (CanSubmit() <==> !isLoading && WellShapedEmail(value))
      ensures field == LoginPassword ==> CanSubmit() == old(CanSubmit())
    {
      match field {
        case LoginEmail =>
          email := value;
          emailError := ValidateEmail(value);
        case LoginPassword =>
          password := value;
      }
    }

    /** `handleSubmit`. `attempted` says whether `login` was called. */
    method Submit(auth: AuthProvider, api: Api) returns (attempted: bool)
      modifies this`error, this`emailError, this`isLoading, auth`user, auth`storage
      ensures attempted <==> ValidateEmail(email) == "" && password != ""
      ensures ValidateEmail(email) != "" ==> emailError == ValidateEmail(email) && error == ""
      ensures ValidateEmail(email) == "" && password == "" ==> error == "Password is required" && emailError == old(emailError)
      ensures !attempted ==> auth.user == old(auth.user) && auth.storage == old(auth.storage) && isLoading == old(isLoading)
      ensures attempted ==> !isLoading && emailError == old(emailError)
      ensures attempted ==>
                var reply := api.login(email, password);
                && (reply.Resolved? && Refusal(reply.data).None? ==>
                      error == "" && auth.user == reply.data.value.user
                      && auth.storage == old(auth.storage)[TokenKey := reply.data.value.token.value])
                && (reply.Rejected? ==>
                      error == LoginErrorMessage(reply.status) && auth.user == old(auth.user) && auth.storage == old(auth.storage))
                && (reply.Resolved? && Refusal(reply.data).Some? ==>
                      error == LoginErrorMessage(None) && auth.user == old(auth.user) && auth.storage == old(auth.storage))
    {
      error := "";
      var emailValidationError := ValidateEmail(email);
      if emailValidationError != "" {
        emailError := emailValidationError;
        return false;
      }
      if password == "" {
        error := "Password is required";
        return false;
      }
      isLoading := true;
      var failure := auth.Login(api, email, password);
      if failure.Some? {
        error := LoginErrorMessage(StatusOf(failure.value));
      }
      isLoading := false;
      attempted := true;
    }
  }

  datatype RegisterField = RegisterName | RegisterEmail | RegisterPassword

  class RegisterPage {
    var name: string
    var email: string
    var password: string
    var error: string
    var emailError: string
    var isLoading: bool

    constructor ()
      ensures name == "" && email == "" && password == "" && error == "" && emailError == "" && !isLoading
    {
      name, email, password, error, emailError, isLoading := "", "", "", "", "", false;
    }

    /** `disabled={isLoading || !!emailError}` on the submit button. */
    predicate CanSubmit()
      reads this
    {
      !isLoading && emailError == ""
    }

    /** `handleChange`: the email is checked as it is typed, and the submit
        button follows that check. */
    method Change(field: RegisterField, value: string)
      modifies this`name, this`email, this`password, this`emailError
      ensures field == RegisterName ==> name == value && email == old(email) && password == old(password) && emailError == old(emailError)
      ensures field == RegisterEmail ==> email == value && emailError == ValidateEmail(value) && name == old(name) && password == old(password)
      ensures field == RegisterPassword ==> password == value && name == old(name) && email == old(email) && emailError == old(emailError)
      ensures field == RegisterEmail ==> (CanSubmit() <==> !isLoading && WellShapedEmail(value))
      ensures field != RegisterEmail ==> CanSubmit() == old(CanSubmit())
    {
      match field {
        case RegisterName =>
          name := value;
        case RegisterEmail =>
          email := value;
          emailError := ValidateEmail(value);
        case RegisterPassword =>
          password := value;
      }
    }

    /** `handleSubmit`: name, then email, then password; the first that fails
        sets its message and `register` is not called. */
    method Submit(auth: AuthProvider, api: Api) returns (attempted: bool)
      modifies this`error, this`emailError, this`isLoading, auth`user, auth`storage
      ensures attempted <==> name != "" && ValidateEmail(email) == "" && password != ""
      ensures name == "" ==> error == "Name is required" && emailError == old(emailError)
      ensures name != "" && ValidateEmail(email) != "" ==> emailError == ValidateEmail(email) && error == ""
      ensures name != "" && ValidateEmail(email) == "" && password == "" ==>
                error == "Password is required" && emailError == old(emailError)
      ensures !attempted ==> auth.user == old(auth.user) && auth.storage == old(auth.storage) && isLoading == old(isLoading)
      ensures attempted ==> !isLoading && emailError == old(emailError)
      ensures attempted ==>
                var f := RegisterFailure(api, name, email, password);
                && (f.Some? ==> error == RegisterErrorMessage(f.value)
                                && auth.user == old(auth.user) && auth.storage == old(auth.storage))
                && (f.None? ==>
                      var s := RegisteredSession(api, name, email, password).value;
                      && error == ""
                      && auth.storage == old(auth.storage)[TokenKey := s.token.value]
                      && auth.user == s.user)
    {
      error := "";
      if name == "" {
        error := "Name is required";
        return false;
      }
      var emailValidationError := ValidateEmail(email);
      if emailValidationError != "" {
        emailError := emailValidationError;
        return false;
      }
      if password == "" {
        error := "Password is required";
        return false;
      }
      isLoading := true;
      var failure := auth.Register(api, name, email, password);
      if failure.Some? {
        error := RegisterErrorMessage(failure.value);
      }
      isLoading := false;
      attempted := true;
    }
  }
}
