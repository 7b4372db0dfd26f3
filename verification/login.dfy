/** The login page: the e-mail pattern, the form validator that writes its two error
    messages, and the decision taken on the sign-in response. The HTTP call, the
    toasts, the browser storage and the navigation are outside the model; the
    response is a parameter and the decision is returned as a value. */
module Login {
  import opened Common

  const EmailInvalid := "Email is not valid!"
  const PasswordEmpty := "Password cannot be empty!"

  predicate IsLetter(c: char) { 'a' <= c <= 'z' || 'A' <= c <= 'Z' }

  predicate IsDigit(c: char) { '0' <= c <= '9' }

  /** The character class `[a-zA-Z0-9._%+-]` of the part before the '@'. */
  predicate IsLocalChar(c: char) {
    IsLetter(c) || IsDigit(c) || c == '.' || c == '_' || c == '%' || c == '+' || c == '-'
  }

  /** The character class `[a-zA-Z0-9.-]` of the part after the '@'. */
  predicate IsDomainChar(c: char) {
    IsLetter(c) || IsDigit(c) || c == '.' || c == '-'
  }

  /** `s` matches `^[a-zA-Z0-9._%+-]+@[a-zA-Z0-9.-]+\.[a-zA-Z]{2,}$` with the literal
      '@' at index `at` and the literal '.' at index `dot`. */
  predicate RegexSplit(s: string, at: int, dot: int) {
    0 < at && at + 1 < dot && dot + 2 < |s| &&
    s[at] == '@' && s[dot] == '.' &&
    (forall i :: 0 <= i < at ==> IsLocalChar(s[i])) &&
    (forall i :: at < i < dot ==> IsDomainChar(s[i])) &&
    (forall i :: dot < i < |s| ==> IsLetter(s[i]))
  }

  /** What the e-mail regular expression accepts: some way of placing its '@' and '.'. */
  ghost predicate MatchesEmailRegex(s: string) {
    exists at, dot :: RegexSplit(s, at, dot)
  }

  /** The index of the first `c` in `s`, or `|s|` when there is none. */
  function IndexOf(s: string, c: char): (k: nat)
    ensures k <= |s|
    ensures k < |s| ==> s[k] == c
    ensures forall i :: 0 <= i < k ==> s[i] != c
  {
    if s == [] then 0
    else if s[0] == c then 0
    else 1 + IndexOf(s[1..], c)
  }

  /** The index of the last `c` in `s`, or -1 when there is none. */
  function LastIndexOf(s: string, c: char): (k: int)
    ensures -1 <= k < |s|
    ensures k >= 0 ==> s[k] == c
    ensures forall i :: k < i < |s| ==> s[i] != c
  {
    if s == [] then -1
    else if s[|s| - 1] == c then |s| - 1
    else LastIndexOf(s[..|s| - 1], c)
  }

  /** The part before the '@': non-empty, over the local character class. */
  predicate ValidLocal(local: string) {
    |local| > 0 && forall i :: 0 <= i < |local| ==> IsLocalChar(local[i])
  }

  /** The part after the '@': over the domain character class, its last '.' has at
      least one character before it and only letters, two or more, after it. */
  predicate ValidDomain(domain: string) {
    (forall i :: 0 <= i < |domain| ==> IsDomainChar(domain[i])) &&
    var dot := LastIndexOf(domain, '.');
    dot >= 1 && |domain| - dot - 1 >= 2 &&
    forall i :: dot < i < |domain| ==> IsLetter(domain[i])
  }

  /** `emailRegex.test(s)`, decided by locating the first '@' and the last '.'. */
  predicate IsEmail(s: string)
    ensures IsEmail(s) ==> 6 <= |s| && IsLetter(s[|s| - 1])
  {
    var at := IndexOf(s, '@');
    at < |s| && ValidLocal(s[..at]) && ValidDomain(s[at + 1..])
  }

  /** The decision procedure accepts exactly the strings the regular expression matches. */
  lemma EmailMatchesRegex(s: string)
    ensures IsEmail(s) <==> MatchesEmailRegex(s)
  {
    if IsEmail(s) {
      var at := IndexOf(s, '@');
      var d := s[at + 1..];
      var k := LastIndexOf(d, '.');
      var dot := at + 1 + k;
      assert forall i :: 0 <= i < at ==> s[i] == s[..at][i];
      assert forall i :: at < i < |s| ==> s[i] == d[i - at - 1];
      assert RegexSplit(s, at, dot);
    }
    if MatchesEmailRegex(s) {
      var at, dot :| RegexSplit(s, at, dot);
      var k := IndexOf(s, '@');
      assert k == at;
      var d := s[at + 1..];
      assert forall i :: 0 <= i < |d| ==> d[i] == s[i + at + 1];
      assert forall i :: 0 <= i < |d| ==> IsDomainChar(d[i]) by {
        forall i | 0 <= i < |d| ensures IsDomainChar(d[i]) {
          if i + at + 1 > dot { assert IsLetter(s[i + at + 1]); }
        }
      }
      var m := LastIndexOf(d, '.');
      assert m == dot - at - 1;
      assert ValidDomain(d);
      assert ValidLocal(s[..at]);
    }
  }

  /** A string the pattern accepts holds exactly one '@'. */
  lemma EmailHasOneAt(s: string)
    requires IsEmail(s)
    ensures multiset(s)['@'] == 1
  {
    var at := IndexOf(s, '@');
    assert s == s[..at] + [s[at]] + s[at + 1..];
    assert '@' !in s[..at];
    assert '@' !in s[at + 1..];
  }

  /** The username check of `validateForm`: its test for "" adds nothing to the
      pattern, so it passes exactly the strings the e-mail regex matches. */
  predicate UsernameOk(username: string)
    ensures UsernameOk(username) <==> MatchesEmailRegex(username)
  {
    EmailMatchesRegex(username);
    username != "" && IsEmail(username)
  }

  /** The password check of `validateForm`: only the empty string fails; no length,
      character or whitespace rule applies. */
  predicate PasswordOk(password: string)
    ensures PasswordOk(password) <==> |password| > 0
  {
    password != ""
  }

  /** `formError`: one message per field, "" when there is none. */
  datatype FormError = FormError(username: string, password: string)

  /** The server's answer to the sign-in request: `statusCode` is present on a
      rejection; `token` and `userData` on an acceptance. `userData` is `None` when
      the answer has no (or a null) `userData` object, and `Some(None)` when that
      object has no `id`. */
  datatype SignInResponse = SignInResponse(statusCode: Option<int>, token: Option<string>, userData: Option<Option<string>>)

  /** What the page does with the answer:
      - `Rejected`: nothing is stored and the page stays;
      - `SignedIn`: the access token and the user id are stored (each "ERROR" when
        the answer lacks it) and the page moves to `route`;
      - `TokenOnly`: the access token is stored, then reading `userData.id` throws,
        so no user id is stored and the page stays. */
  datatype SignInOutcome =
    | Rejected
    | SignedIn(accessToken: string, userId: string, route: string)
    | TokenOnly(accessToken: string)

  /** The access token stored on every answer without `statusCode`. */
  function TokenOrError(resp: SignInResponse): string {
    match resp.token case Some(t) => t case None => "ERROR"
  }

  /** The branch on `data["statusCode"] != null` after the sign-in request. */
  function SignInDecision(resp: SignInResponse): (o: SignInOutcome)
    ensures o.Rejected? <==> resp.statusCode.Some?
    ensures o.SignedIn? <==> resp.statusCode.None? && resp.userData.Some?
    ensures o.TokenOnly? <==> resp.statusCode.None? && resp.userData.None?
    ensures !o.Rejected? ==> o.accessToken == (if resp.token.Some? then resp.token.value else "ERROR")
    ensures o.SignedIn? ==> o.route == "/"
    ensures o.SignedIn? ==> o.userId == (if resp.userData.value.Some? then resp.userData.value.value else "ERROR")
  {
    if resp.statusCode.Some? then Rejected
    else
      match resp.userData
      case None => TokenOnly(TokenOrError(resp))
      case Some(user) => SignedIn(TokenOrError(resp), match user case Some(u) => u case None => "ERROR", "/")
  }

  /** The component state of the login page. */
  class LoginPage {
    var loginForm: map<string, string>
    var formError: FormError
    var loading: bool

    ghost predicate Valid()
      reads this
    {
      "username" in loginForm && "password" in loginForm
    }

    constructor ()
      ensures Valid()
      ensures loginForm == map["username" := "", "password" := ""]
      ensures formError == FormError("", "") && !loading
    {
      loginForm := map["username" := "", "password" := ""];
      formError := FormError("", "");
      loading := false;
    }

    function Username(): string
      reads this
      requires Valid()
    {
      loginForm["username"]
    }

    function Password(): string
      reads this
      requires Valid()
    {
      loginForm["password"]
    }

    /** `handleFormUpdate(name, value)`: only the key `name` of the form changes. */
    method HandleFormUpdate(name: string, value: string)
      requires Valid()
      modifies this`loginForm
      ensures Valid()
      ensures loginForm == old(loginForm)[name := value]
      ensures forall k :: k in old(loginForm) && k != name ==> k in loginForm && loginForm[k] == old(loginForm)[k]
    {
      loginForm := loginForm[name := value];
    }

    /** `validateForm`: both checks run; each failing check writes its own message
        and leaves the other field's message as it was. */
    method ValidateForm() returns (isValid: bool)
      requires Valid()
      modifies this`formError
      ensures Valid()
      ensures isValid <==> UsernameOk(Username()) && PasswordOk(Password())
      ensures formError.username == if UsernameOk(Username()) then old(formError.username) else EmailInvalid
      ensures formError.password == if PasswordOk(Password()) then old(formError.password) else PasswordEmpty
    {
      isValid := true;
      if loginForm["username"] == "" || !IsEmail(loginForm["username"]) {
        formError := formError.(username := EmailInvalid);
        isValid := false;
      }
      if loginForm["password"] == "" {
        formError := formError.(password := PasswordEmpty);
        isValid := false;
      }
    }

    /** `resetFormErrorDefault` */
    method ResetFormErrorDefault()
      modifies this`formError
      ensures formError == FormError("", "")
    {
      formError := FormError("", "");
    }

    /** `submitLoginForm` up to the request: the errors are cleared and then reflect
        the current form only; a sign-in request (the form as body) is issued only
        when the form is valid, and then the page shows that it is loading. */
    method SubmitLoginForm() returns (request: Option<map<string, string>>)
      requires Valid()
      modifies this`formError, this`loading
      ensures Valid()
      ensures formError == FormError(
                if UsernameOk(Username()) then "" else EmailInvalid,
                if PasswordOk(Password()) then "" else PasswordEmpty)
      ensures request.Some? <==> UsernameOk(Username()) && PasswordOk(Password())
      ensures request.Some? ==> request.value == loginForm
      ensures loading == (request.Some? || old(loading))
    {
      ResetFormErrorDefault();
      var ok := ValidateForm();
      if ok {
        loading := true;
        request := Some(loginForm);
      } else {
        request := None;
      }
    }

    /** The answer to the sign-in request: loading stops and the decision is taken. */
    method HandleSignInResponse(resp: SignInResponse) returns (outcome: SignInOutcome)
      modifies this`loading
      ensures !loading
      ensures outcome == SignInDecision(resp)
    {
      loading := false;
      outcome := SignInDecision(resp);
    }
  }
}
