/** The sign-in and sign-up screen of `app/login/page.tsx`: client-side
    checks that fill an error dictionary, the user record handed to the
    session after a successful reply, and the remembered user name. */
module Login {
  import opened Common
  import opened Auth

  // ---------------------------------------------------------------------
  // The e-mail pattern /^[^\s@]+@[^\s@]+\.[^\s@]+$/
  // ---------------------------------------------------------------------

  /** One `[^\s@]+` run: non-empty, no white space, no '@'. */
  ghost predicate Run(x: string) {
    x != [] && forall i :: 0 <= i < |x| ==> !IsWhitespace(x[i]) && x[i] != '@'
  }

  /** The language of the pattern: three runs joined by '@' and '.'. */
  ghost predicate EmailShape(s: string) {
    exists a: string, b: string, c: string :: Run(a) && Run(b) && Run(c) && s == a + "@" + b + "." + c
  }

  predicate NoWhitespace(s: string) {
    forall i :: 0 <= i < |s| ==> !IsWhitespace(s[i])
  }

  /** A '.' strictly inside `d`: neither its first nor its last character. */
  predicate DotInside(d: string) {
    exists j :: 0 < j < |d| - 1 && d[j] == '.'
  }

  /** `validateEmail`, decided directly: no white space, a first '@' that
      is not the first character, no second '@', and a '.' strictly inside
      what follows it. */
  predicate ValidateEmail(s: string)
    ensures ValidateEmail(s) ==> NoWhitespace(s) && |s| >= 5 && s[0] != '@'
  {
    NoWhitespace(s) &&
    match IndexOf(s, '@')
    case None => false
    case Some(i) => i > 0 && '@' !in s[i + 1..] && DotInside(s[i + 1..])
  }

  /** A run has no '@' and no white space. */
  lemma RunChars(x: string)
    requires Run(x)
    ensures '@' !in x && NoWhitespace(x)
  {
    forall k | 0 <= k < |x| ensures x[k] != '@' { }
  }

  /** A non-empty slice of a string without white space, whose characters
      are not '@', is a run. */
  lemma RunSlice(s: string, lo: int, hi: int)
    requires 0 <= lo < hi <= |s| && NoWhitespace(s)
    requires forall k :: lo <= k < hi ==> s[k] != '@'
    ensures Run(s[lo..hi])
    ensures lo == 0 ==> Run(s[..hi])
    ensures hi == |s| ==> Run(s[lo..])
  {
    forall k | 0 <= k < hi - lo ensures !IsWhitespace(s[lo..hi][k]) && s[lo..hi][k] != '@' {
      assert s[lo..hi][k] == s[lo + k];
    }
    assert lo == 0 ==> s[..hi] == s[lo..hi];
    assert hi == |s| ==> s[lo..] == s[lo..hi];
  }

  /** A character absent from a slice is absent at each of its positions. */
  lemma AbsentFromSlice(s: string, lo: int, hi: int, c: char)
    requires 0 <= lo <= hi <= |s| && c !in s[lo..hi]
    ensures forall k :: lo <= k < hi ==> s[k] != c
  {
    forall k | lo <= k < hi ensures s[k] != c { assert s[lo..hi][k - lo] == s[k]; }
  }

  /** Cutting a string at an '@' and at a later '.'. */
  lemma CutAt(s: string, i: int, m: int)
    requires 0 <= i < m < |s| && s[i] == '@' && s[m] == '.'
    ensures s == s[..i] + "@" + s[i + 1..m] + "." + s[m + 1..]
  {
    assert s == s[..i] + [s[i]] + s[i + 1..m] + [s[m]] + s[m + 1..];
  }

  /** Every string the decision procedure accepts matches the pattern. */
  lemma ValidatedMatches(s: string)
    requires ValidateEmail(s)
    ensures EmailShape(s)
  {
    var i := IndexOf(s, '@').value;
    var j :| 0 < j < |s[i + 1..]| - 1 && s[i + 1..][j] == '.';
    var m := i + 1 + j;
    assert s[m] == '.';
    CutAt(s, i, m);
    AbsentFromSlice(s, 0, i, '@');
    AbsentFromSlice(s, i + 1, |s|, '@');
    RunSlice(s, 0, i);
    RunSlice(s, i + 1, m);
    RunSlice(s, m + 1, |s|);
    ShapeOf(s, s[..i], s[i + 1..m], s[m + 1..]);
  }

  lemma ShapeOf(s: string, a: string, b: string, c: string)
    requires Run(a) && Run(b) && Run(c) && s == a + "@" + b + "." + c
    ensures EmailShape(s)
  {
  }

  lemma NoWhitespaceConcat(x: string, y: string)
    requires NoWhitespace(x) && NoWhitespace(y)
    ensures NoWhitespace(x + y)
  {
    forall k | 0 <= k < |x + y| ensures !IsWhitespace((x + y)[k]) {
      if k < |x| { assert (x + y)[k] == x[k]; } else { assert (x + y)[k] == y[k - |x|]; }
    }
  }

  /** Every string matching the pattern is accepted. */
  lemma MatchesValidated(s: string)
    requires EmailShape(s)
    ensures ValidateEmail(s)
  {
    var a: string, b: string, c: string :| Run(a) && Run(b) && Run(c) && s == a + "@" + b + "." + c;
    RunChars(a);
    RunChars(b);
    RunChars(c);
    var d := b + "." + c;
    assert s == a + "@" + d;
    NoWhitespaceConcat(b, ".");
    NoWhitespaceConcat(b + ".", c);
    NoWhitespaceConcat(a, "@");
    NoWhitespaceConcat(a + "@", d);
    assert s[..|a|] == a && s[|a|] == '@';
    assert IndexOf(s, '@') == Some(|a|);
    assert s[|a| + 1..] == d;
    assert d[|b|] == '.';
  }

  /** `validateEmail` accepts exactly the strings the pattern matches. */
  lemma ValidateEmailIsPattern(s: string)
    ensures ValidateEmail(s) <==> EmailShape(s)
  {
    if ValidateEmail(s) { ValidatedMatches(s); }
    if EmailShape(s) { MatchesValidated(s); }
  }

  /** The pattern's edges: a '.' right after the '@' or at the very end is
      refused, and so is a second '@'. */
  lemma EmailAccepted()
    ensures ValidateEmail("a@b.c")
  {
    assert IndexOf("a@b.c", '@') == Some(1);
    assert "a@b.c"[2..] == "b.c" && "b.c"[1] == '.';
  }

  lemma DotAfterAtRefused()
    ensures !ValidateEmail("a@.c")
  {
    assert IndexOf("a@.c", '@') == Some(1);
    assert "a@.c"[2..] == ".c";
  }

  lemma TrailingDotRefused()
    ensures !ValidateEmail("a@b.")
  {
    assert IndexOf("a@b.", '@') == Some(1);
    assert "a@b."[2..] == "b.";
  }

  lemma SecondAtRefused()
    ensures !ValidateEmail("a@b@c.d")
  {
    assert IndexOf("a@b@c.d", '@') == Some(1);
    assert "a@b@c.d"[2..] == "b@c.d" && "b@c.d"[1] == '@';
  }

  // ---------------------------------------------------------------------
  // Client-side checks
  // ---------------------------------------------------------------------

  const UsernameRequired := "Username is required"
  const PasswordRequired := "Password is required"
  const PasswordTooShort := "Password must be at least 6 characters"
  const EmailRequired := "Email is required"
  const EmailInvalid := "Please enter a valid email"
  const PasswordsDiffer := "Passwords do not match"

  /** The password rule both tabs share: required, then at least six
      characters. */
  function PasswordError(password: string): (r: Option<string>)
    ensures r == None <==> |password| >= 6
    ensures password == "" ==> r == Some(PasswordRequired)
    ensures 0 < |password| < 6 ==> r == Some(PasswordTooShort)
  {
    if password == "" then Some(PasswordRequired)
    else if |password| < 6 then Some(PasswordTooShort)
    else None
  }

  /** `m[key := e]` when there is an error, `m` otherwise. */
  function PutError(m: map<string, string>, key: string, e: Option<string>): map<string, string> {
    match e
    case Some(text) => m[key := text]
    case None => m
  }

  /** The errors `handleLogin` finds. */
  function LoginErrors(username: string, password: string): (r: map<string, string>)
    ensures "username" in r <==> AllWhitespace(username)
    ensures "username" in r ==> r["username"] == UsernameRequired
    ensures "password" in r <==> |password| < 6
    ensures "password" in r ==> Some(r["password"]) == PasswordError(password)
    ensures r.Keys <= {"username", "password"}
  {
    TrimEmptyIffBlank(username);
    PutError(if Trim(username) == "" then map["username" := UsernameRequired] else map[], "password", PasswordError(password))
  }

  /** The e-mail rule of the sign-up tab: required, then the pattern. */
  function EmailError(email: string): (r: Option<string>)
    ensures r == None <==> !AllWhitespace(email) && ValidateEmail(email)
    ensures AllWhitespace(email) ==> r == Some(EmailRequired)
  {
    TrimEmptyIffBlank(email);
    if Trim(email) == "" then Some(EmailRequired)
    else if !ValidateEmail(email) then Some(EmailInvalid)
    else None
  }

  /** The errors `handleSignup` finds. */
  function SignupErrors(username: string, email: string, password: string, confirm: string): (r: map<string, string>)
    ensures "username" in r <==> AllWhitespace(username)
    ensures "email" in r <==> AllWhitespace(email) || !ValidateEmail(email)
    ensures "password" in r <==> |password| < 6
    ensures "confirmPassword" in r <==> password != confirm
    ensures "username" in r ==> r["username"] == UsernameRequired
    ensures "email" in r ==> Some(r["email"]) == EmailError(email)
    ensures "password" in r ==> Some(r["password"]) == PasswordError(password)
    ensures "confirmPassword" in r ==> r["confirmPassword"] == PasswordsDiffer
    ensures r.Keys <= {"username", "email", "password", "confirmPassword"}
  {
    TrimEmptyIffBlank(username);
    var m0: map<string, string> := if Trim(username) == "" then map["username" := UsernameRequired] else map[];
    var m1 := PutError(m0, "email", EmailError(email));
    var m2 := PutError(m1, "password", PasswordError(password));
    PutError(m2, "confirmPassword", if password != confirm then Some(PasswordsDiffer) else None)
  }

  /** A six-character password whose confirmation matches and a
      well-formed address pass; nothing else about the user's input is
      checked client-side. */
  lemma SignupAcceptsWellFormed(username: string, email: string, password: string)
    requires !AllWhitespace(username) && ValidateEmail(email) && |password| >= 6
    ensures SignupErrors(username, email, password, password) == map[]
  {
    var r := SignupErrors(username, email, password, password);
    assert !AllWhitespace(email) by {
      assert NoWhitespace(email);
      assert IndexOf(email, '@').Some?;
      var i := IndexOf(email, '@').value;
      assert !IsWhitespace(email[i]);
    }
    assert "username" !in r && "email" !in r && "password" !in r && "confirmPassword" !in r;
    assert r.Keys == {};
  }

  // ---------------------------------------------------------------------
  // The user handed to the session
  // ---------------------------------------------------------------------

  /** The reply body of a successful sign-in or sign-up; a missing field is
      the empty string. */
  datatype AuthReply = AuthReply(username: string, email: string, role: string, token: string)

  /** The user `handleLogin` passes to `login`: reply fields win over the
      typed ones when present, the role defaults to "user". */
  function LoginUser(reply: AuthReply, typedName: string): (u: UserData)
    ensures u.role == (if reply.role != "" then reply.role else "user")
    ensures u.isAdmin <==> reply.role == "admin"
    ensures u.isAdmin ==> u.role == "admin"
    ensures u.name == (if reply.username != "" then reply.username else typedName)
    ensures u.email == reply.email && u.token == reply.token
  {
    UserData(if reply.username != "" then reply.username else typedName,
             reply.email, reply.role == "admin", reply.token,
             if reply.role != "" then reply.role else "user")
  }

  /** The role the sign-up request asks for. */
  function RequestedRole(isAdmin: bool): (r: string)
    ensures r == "admin" <==> isAdmin
    ensures r == "admin" || r == "user"
  {
    if isAdmin then "admin" else "user"
  }

  /** The user `handleSignup` passes to `login`: the role falls back to the
      one requested. */
  function SignupUser(reply: AuthReply, typedName: string, typedEmail: string, isAdmin: bool): (u: UserData)
    ensures u.role == (if reply.role != "" then reply.role else RequestedRole(isAdmin))
    ensures u.isAdmin <==> reply.role == "admin"
    ensures u.name == (if reply.username != "" then reply.username else typedName)
    ensures u.email == (if reply.email != "" then reply.email else typedEmail) && u.token == reply.token
  {
    UserData(if reply.username != "" then reply.username else typedName,
             if reply.email != "" then reply.email else typedEmail,
             reply.role == "admin", reply.token,
             if reply.role != "" then reply.role else RequestedRole(isAdmin))
  }

  /** Whatever the reply, the session the screen starts is an admin
      session exactly when its role is "admin". */
  lemma SessionAdminIffRole(reply: AuthReply, typedName: string)
    ensures SignedIn(LoginUser(reply, typedName)).isAdmin <==> LoginUser(reply, typedName).role == "admin"
    ensures SignedIn(LoginUser(reply, typedName)) == LoginUser(reply, typedName)
  {
  }

  datatype LoginData = LoginData(username: string, password: string, rememberMe: bool)
  datatype SignupData = SignupData(username: string, email: string, password: string, confirmPassword: string, isAdmin: bool)
  datatype Tab = LoginTab | SignupTab

  /** The body of the sign-up request. */
  datatype Registration = Registration(username: string, email: string, password: string, role: string)

  const EmptyLogin := LoginData("", "", false)
  const EmptySignup := SignupData("", "", "", "", false)
  const RememberedKey := "rememberedUsername"

  /** The checks of `handleLogin`, filling the dictionary one by one. */
  method CheckLogin(d: LoginData) returns (newErrors: map<string, string>)
    ensures newErrors == LoginErrors(d.username, d.password)
  {
    newErrors := map[];
    TrimEmptyIffBlank(d.username);
    if Trim(d.username) == "" {
      newErrors := newErrors["username" := UsernameRequired];
    }
    if d.password == "" {
      newErrors := newErrors["password" := PasswordRequired];
    } else if |d.password| < 6 {
      newErrors := newErrors["password" := PasswordTooShort];
    }
    assert newErrors == LoginErrors(d.username, d.password);
  }

  /** The checks of `handleSignup`, filling the dictionary one by one. */
  method CheckSignup(d: SignupData) returns (newErrors: map<string, string>)
    ensures newErrors == SignupErrors(d.username, d.email, d.password, d.confirmPassword)
  {
    newErrors := map[];
    TrimEmptyIffBlank(d.username);
    if Trim(d.username) == "" {
      newErrors := newErrors["username" := UsernameRequired];
    }
    ghost var m0 := newErrors;
    TrimEmptyIffBlank(d.email);
    if Trim(d.email) == "" {
      newErrors := newErrors["email" := EmailRequired];
    } else if !ValidateEmail(d.email) {
      newErrors := newErrors["email" := EmailInvalid];
    }
    assert newErrors == PutError(m0, "email", EmailError(d.email));
    ghost var m1 := newErrors;
    if d.password == "" {
      newErrors := newErrors["password" := PasswordRequired];
    } else if |d.password| < 6 {
      newErrors := newErrors["password" := PasswordTooShort];
    }
    assert newErrors == PutError(m1, "password", PasswordError(d.password));
    ghost var m2 := newErrors;
    if d.password != d.confirmPassword {
      newErrors := newErrors["confirmPassword" := PasswordsDiffer];
    }
    assert newErrors == PutError(m2, "confirmPassword", if d.password != d.confirmPassword then Some(PasswordsDiffer) else None);
    assert newErrors == SignupErrors(d.username, d.email, d.password, d.confirmPassword);
  }

  class LoginPage {
    var activeTab: Tab
    var errors: map<string, string>
    var loginData: LoginData
    var signupData: SignupData
    const auth: AuthContext

    constructor (auth: AuthContext)
      ensures this.auth == auth
      ensures activeTab == LoginTab && errors == map[] && loginData == EmptyLogin && signupData == EmptySignup
    {
      this.auth := auth;
      activeTab := LoginTab;
      errors := map[];
      loginData := EmptyLogin;
      signupData := EmptySignup;
    }

    /** Switching tabs clears every error. */
    method SwitchTab(tab: Tab)
      modifies this`activeTab, this`errors
      ensures activeTab == tab && errors == map[]
    {
      activeTab := tab;
      errors := map[];
    }

    method EditLogin(d: LoginData)
      modifies this`loginData
      ensures loginData == d
    {
      loginData := d;
    }

    method EditSignup(d: SignupData)
      modifies this`signupData
      ensures signupData == d
    {
      signupData := d;
    }

    /** `handleLogin`: the checks fill the error dictionary one by one and
        any error stops the request. A failed reply leaves only a form
        error; a successful one starts the session, remembers the user name
        when asked to, and empties the form. */
    method HandleLogin(reply: Outcome<AuthReply>) returns (requested: bool)
      modifies this`errors, this`loginData, auth`user, auth`isLoginOpen, auth.storage`items
      ensures requested <==> LoginErrors(old(loginData).username, old(loginData).password) == map[]
      ensures !requested ==> errors == LoginErrors(old(loginData).username, old(loginData).password) &&
                             loginData == old(loginData) && unchanged(auth, auth.storage)
      ensures requested && reply.Failed? ==>
                errors == map["form" := MessageOr(reply.message, "Login failed")] &&
                loginData == old(loginData) && unchanged(auth, auth.storage)
      ensures requested && reply.Ok? ==>
                var u := LoginUser(reply.payload, old(loginData).username);
                var stored := AfterLogin(old(auth.storage.items), u, auth.json);
                errors == map[] && loginData == EmptyLogin &&
                auth.user == Some(SignedIn(u)) && !auth.isLoginOpen &&
                auth.storage.items == (if old(loginData).rememberMe then stored[RememberedKey := old(loginData).username] else stored)
    {
      var newErrors := CheckLogin(loginData);
      errors := newErrors;
      if newErrors != map[] {
        return false;
      }
      requested := true;
      if reply.Failed? {
        errors := map["form" := MessageOr(reply.message, "Login failed")];
        return;
      }
      var typed := loginData;
      auth.Login(LoginUser(reply.payload, typed.username));
      if typed.rememberMe {
        auth.storage.SetItem(RememberedKey, typed.username);
      }
      loginData := EmptyLogin;
      errors := map[];
    }

    /** `handleSignup`: the same shape as sign-in, with the sign-up checks;
        the request asks for the "admin" role exactly when the box is
        ticked. */
    method HandleSignup(reply: Outcome<AuthReply>) returns (sent: Option<Registration>)
      modifies this`errors, this`signupData, auth`user, auth`isLoginOpen, auth.storage`items
      ensures var d := old(signupData);
        sent.Some? <==> SignupErrors(d.username, d.email, d.password, d.confirmPassword) == map[]
      ensures var d := old(signupData);
        sent.Some? ==> sent.value == Registration(d.username, d.email, d.password, RequestedRole(d.isAdmin))
      ensures var d := old(signupData);
        sent.None? ==> errors == SignupErrors(d.username, d.email, d.password, d.confirmPassword) &&
                       signupData == d && unchanged(auth, auth.storage)
      ensures sent.Some? && reply.Failed? ==>
                errors == map["form" := MessageOr(reply.message, "Registration failed")] &&
                signupData == old(signupData) && unchanged(auth, auth.storage)
      ensures var d := old(signupData);
        sent.Some? && reply.Ok? ==>
                var u := SignupUser(reply.payload, d.username, d.email, d.isAdmin);
                errors == map[] && signupData == EmptySignup &&
                auth.user == Some(SignedIn(u)) && !auth.isLoginOpen &&
                auth.storage.items == AfterLogin(old(auth.storage.items), u, auth.json)
    {
      var d := signupData;
      var newErrors := CheckSignup(d);
      errors := newErrors;
      if newErrors != map[] {
        return None;
      }
      sent := Some(Registration(d.username, d.email, d.password, RequestedRole(d.isAdmin)));
      if reply.Failed? {
        errors := map["form" := MessageOr(reply.message, "Registration failed")];
        return;
      }
      auth.Login(SignupUser(reply.payload, d.username, d.email, d.isAdmin));
      signupData := EmptySignup;
      errors := map[];
    }
  }
}
