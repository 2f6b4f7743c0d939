/** The sign-in form: field validation, per-field error clearing and the
    demo credential check. */
module LoginForm {
  import opened Common

  // ---------------------------------------------------------------------
  // The email pattern /^[^\s@]+@[^\s@]+\.[^\s@]+$/
  // ---------------------------------------------------------------------

  /** A character of `[^\s@]`. */
  predicate Plain(c: char)
  {
    !IsSpace(c) && c != '@'
  }

  predicate AllPlain(s: string)
  {
    forall i :: 0 <= i < |s| ==> Plain(s[i])
  }

  /** What the pattern accepts after the '@': plain characters with a dot
      that has at least one character on each side. */
  ghost predicate DomainOk(d: string)
  {
    AllPlain(d) && exists k :: 1 <= k < |d| - 1 && d[k] == '.'
  }

  /** `s` splits at its '@' in position `i` as the pattern requires. */
  ghost predicate SplitAt(s: string, i: int)
  {
    0 <= i < |s| && s[i] == '@' && AllPlain(s[..i]) && DomainOk(s[i + 1..])
  }

  /** The pattern: a non-empty plain local part, the '@', and a domain as above. */
  ghost predicate EmailPattern(s: string)
  {
    exists i :: 0 < i && SplitAt(s, i)
  }

  /** The states of a left-to-right matcher for the pattern. */
  datatype Scan =
    | LocalStart   // nothing read
    | Local        // a non-empty local part
    | DomainStart  // just after the '@'
    | Domain       // domain characters, no dot after the first one yet
    | Dot          // the last character was such a dot
    | Tail         // a dot with characters on both sides has been read

  /** Runs the matcher over `s` from `state`; true when it ends in `Tail`. */
  function Run(state: Scan, s: string): bool
    decreases s
  {
    if s == [] then state == Tail
    else
      var c := s[0];
      match state
      case LocalStart => Plain(c) && Run(Local, s[1..])
      case Local => if c == '@' then Run(DomainStart, s[1..]) else Plain(c) && Run(Local, s[1..])
      case DomainStart => Plain(c) && Run(Domain, s[1..])
      case Domain => Plain(c) && Run(if c == '.' then Dot else Domain, s[1..])
      case Dot => Plain(c) && Run(Tail, s[1..])
      case Tail => Plain(c) && Run(Tail, s[1..])
  }

  /** `test` of the email pattern. */
  function ValidEmail(s: string): bool
  {
    Run(LocalStart, s)
  }

  lemma {:induction false} RunTail(s: string)
    ensures Run(Tail, s) <==> AllPlain(s)
  {
    if s != [] {
      RunTail(s[1..]);
      assert forall i :: 1 <= i < |s| ==> s[i] == s[1..][i - 1];
    }
  }

  lemma RunDot(s: string)
    ensures Run(Dot, s) <==> s != [] && AllPlain(s)
  {
    if s != [] {
      RunTail(s[1..]);
      assert forall i :: 1 <= i < |s| ==> s[i] == s[1..][i - 1];
    }
  }

  /** In `Domain` at least one character has been read, so a dot anywhere
      but at the end of what is left will do. */
  lemma {:induction false} RunDomain(s: string)
    ensures Run(Domain, s) <==> AllPlain(s) && exists k :: 0 <= k < |s| - 1 && s[k] == '.'
  {
    if s != [] {
      var t := s[1..];
      assert forall i :: 1 <= i < |s| ==> s[i] == t[i - 1];
      if s[0] == '.' {
        RunDot(t);
        if AllPlain(s) && |s| >= 2 {
          assert 0 <= 0 < |s| - 1 && s[0] == '.';
        }
      } else {
        RunDomain(t);
        if exists k :: 0 <= k < |s| - 1 && s[k] == '.' {
          var k :| 0 <= k < |s| - 1 && s[k] == '.';
          assert 0 <= k - 1 < |t| - 1 && t[k - 1] == '.';
        }
        if exists k :: 0 <= k < |t| - 1 && t[k] == '.' {
          var k :| 0 <= k < |t| - 1 && t[k] == '.';
          assert 0 <= k + 1 < |s| - 1 && s[k + 1] == '.';
        }
      }
    }
  }

  lemma RunDomainStart(s: string)
    ensures Run(DomainStart, s) <==> DomainOk(s)
  {
    if s != [] {
      var t := s[1..];
      assert forall i :: 1 <= i < |s| ==> s[i] == t[i - 1];
      RunDomain(t);
      if exists k :: 1 <= k < |s| - 1 && s[k] == '.' {
        var k :| 1 <= k < |s| - 1 && s[k] == '.';
        assert 0 <= k - 1 < |t| - 1 && t[k - 1] == '.';
      }
      if exists k :: 0 <= k < |t| - 1 && t[k] == '.' {
        var k :| 0 <= k < |t| - 1 && t[k] == '.';
        assert 1 <= k + 1 < |s| - 1 && s[k + 1] == '.';
      }
    }
  }

  /** A plain first character extends the local part of a split by one. */
  lemma SplitShift(s: string, i: int)
    requires s != [] && Plain(s[0])
    ensures SplitAt(s, i + 1) <==> SplitAt(s[1..], i)
  {
    var t := s[1..];
    if 0 <= i < |t| {
      assert s[..i + 1] == [s[0]] + t[..i];
      assert s[i + 1 + 1..] == t[i + 1..];
    }
  }

  /** In `Local` the local part is already non-empty, so the '@' may come first. */
  lemma {:induction false} RunLocal(s: string)
    ensures Run(Local, s) <==> exists i :: SplitAt(s, i)
  {
    if s != [] {
      var t := s[1..];
      if s[0] == '@' {
        RunDomainStart(t);
        assert SplitAt(s, 0) <==> DomainOk(t) by { assert s[..0] == []; }
        forall i | 0 < i < |s| ensures !SplitAt(s, i) {
          assert s[..i][0] == '@';
        }
      } else if Plain(s[0]) {
        RunLocal(t);
        assert !SplitAt(s, 0);
        if exists i :: SplitAt(s, i) {
          var i :| SplitAt(s, i);
          SplitShift(s, i - 1);
        }
        if exists i :: SplitAt(t, i) {
          var i :| SplitAt(t, i);
          SplitShift(s, i);
        }
      } else {
        forall i | 0 <= i < |s| ensures !SplitAt(s, i) {
          if i > 0 { assert s[..i][0] == s[0]; }
        }
      }
    }
  }

  /** The matcher accepts exactly the strings the pattern describes. */
  lemma ValidEmailMeetsPattern(s: string)
    ensures ValidEmail(s) <==> EmailPattern(s)
  {
    if s != [] && Plain(s[0]) {
      var t := s[1..];
      RunLocal(t);
      if exists i :: 0 < i && SplitAt(s, i) {
        var i :| 0 < i && SplitAt(s, i);
        SplitShift(s, i - 1);
      }
      if exists i :: SplitAt(t, i) {
        var i :| SplitAt(t, i);
        SplitShift(s, i);
      }
    } else if s != [] {
      forall i | 0 < i < |s| ensures !SplitAt(s, i) {
        assert s[..i][0] == s[0];
      }
    }
  }

  // ---------------------------------------------------------------------
  // Validation and credentials
  // ---------------------------------------------------------------------

  const EmailRequired: string := "Email is required"
  const EmailInvalid: string := "Please enter a valid email address"
  const PasswordRequired: string := "Password is required"
  const PasswordShort: string := "Password must be at least 6 characters"
  const InvalidLogin: string := "Invalid email or password. Try: demo@taskmind.ai / demo123"

  /** The demo accounts, as (email, password). */
  const DemoCredentials: seq<(string, string)> :=
    [("demo@taskmind.ai", "demo123"), ("admin@taskmind.ai", "admin123"), ("user@taskmind.ai", "user123")]

  /** The error for the email field, if any. */
  function EmailError(email: string): Option<string>
  {
    if Trim(email) == "" then Some(EmailRequired)
    else if !ValidEmail(email) then Some(EmailInvalid)
    else None
  }

  /** The error for the password field, if any. The length is the raw one,
      spaces included. */
  function PasswordError(password: string): Option<string>
  {
    if Trim(password) == "" then Some(PasswordRequired)
    else if |password| < 6 then Some(PasswordShort)
    else None
  }

  /** `validateForm`'s new error object: a key for each failing field. */
  function Validate(email: string, password: string): (errors: map<string, string>)
    ensures ("email" in errors) == EmailError(email).Some? && ("password" in errors) == PasswordError(password).Some?
    ensures "email" in errors ==> errors["email"] == EmailError(email).value
    ensures "password" in errors ==> errors["password"] == PasswordError(password).value
    ensures errors.Keys <= {"email", "password"}
  {
    var e: map<string, string> := if EmailError(email).Some? then map["email" := EmailError(email).value] else map[];
    if PasswordError(password).Some? then e["password" := PasswordError(password).value] else e
  }

  /** The form is valid exactly when both fields pass: a well-formed email
      and a password that is not blank and has at least six characters. */
  lemma ValidateIffFieldsPass(email: string, password: string)
    ensures Validate(email, password) == map[] <==>
      EmailPattern(email) && !IsBlank(password) && |password| >= 6
  {
    ValidEmailMeetsPattern(email);
    TrimEmptyIffBlank(password);
    var errors := Validate(email, password);
    if EmailError(email).Some? {
      assert "email" in errors;
    }
    if PasswordError(password).Some? {
      assert "password" in errors;
    }
    if EmailPattern(email) {
      var i :| 0 < i < |email| && email[i] == '@' && AllPlain(email[..i]) && DomainOk(email[i + 1..]);
      assert !IsSpace(email[0]) by { assert email[..i][0] == email[0]; }
      TrimEmptyIffBlank(email);
    }
  }

  /** Whether (email, password) is one of the listed pairs. */
  function Matches(credentials: seq<(string, string)>, email: string, password: string): (found: bool)
    ensures found <==> exists i :: 0 <= i < |credentials| && credentials[i] == (email, password)
  {
    if credentials == [] then false
    else
      var rest := Matches(credentials[1..], email, password);
      assert forall i :: 1 <= i < |credentials| ==> credentials[i] == credentials[1..][i - 1];
      credentials[0] == (email, password) || rest
  }

  /** Exactly the three demo pairs sign in. */
  lemma DemoLogins(email: string, password: string)
    ensures Matches(DemoCredentials, email, password) <==>
      (email, password) in {("demo@taskmind.ai", "demo123"), ("admin@taskmind.ai", "admin123"), ("user@taskmind.ai", "user123")}
  {
    if (email, password) in {("demo@taskmind.ai", "demo123"), ("admin@taskmind.ai", "admin123"), ("user@taskmind.ai", "user123")} {
      if (email, password) == DemoCredentials[0] {
        assert DemoCredentials[0] == (email, password);
      } else if (email, password) == DemoCredentials[1] {
        assert DemoCredentials[1] == (email, password);
      } else {
        assert DemoCredentials[2] == (email, password);
      }
    }
  }

  /** The sign-in button is disabled exactly when a raw field is empty. */
  predicate SubmitDisabled(email: string, password: string)
  {
    email == "" || password == ""
  }

  /** The button only blocks forms that validation would reject anyway. */
  lemma DisabledFormFailsValidation(email: string, password: string)
    requires SubmitDisabled(email, password)
    ensures Validate(email, password) != map[]
  {
    assert Trim("") == "";
    if email == "" {
      assert "email" in Validate(email, password);
    } else {
      assert "password" in Validate(email, password);
    }
  }

  /** What the form stores for the session after a successful sign-in. */
  datatype StoredUser = StoredUser(email: string, rememberMe: bool)

  class LoginForm {
    /** The accepted (email, password) pairs. */
    const credentials: seq<(string, string)>
    var email: string
    var password: string
    var rememberMe: bool
    var showPassword: bool
    var isLoading: bool
    var errors: map<string, string>

    constructor ()
      ensures credentials == DemoCredentials
      ensures email == "" && password == "" && !rememberMe && !showPassword && !isLoading && errors == map[]
    {
      credentials := DemoCredentials;
      email := "";
      password := "";
      rememberMe := false;
      showPassword := false;
      isLoading := false;
      errors := map[];
    }

    /** `handleInputChange('email', value)`: a set email error is cleared;
        the other errors stay. */
    method EmailChange(value: string)
      modifies this
      ensures email == value && password == old(password) && rememberMe == old(rememberMe)
      ensures errors == (if "email" in old(errors) && old(errors)["email"] != "" then old(errors)["email" := ""] else old(errors))
      ensures isLoading == old(isLoading) && showPassword == old(showPassword)
    {
      email := value;
      if "email" in errors && errors["email"] != "" {
        errors := errors["email" := ""];
      }
    }

    /** `handleInputChange('password', value)`. */
    method PasswordChange(value: string)
      modifies this
      ensures password == value && email == old(email) && rememberMe == old(rememberMe)
      ensures errors == (if "password" in old(errors) && old(errors)["password"] != "" then old(errors)["password" := ""] else old(errors))
      ensures isLoading == old(isLoading) && showPassword == old(showPassword)
    {
      password := value;
      if "password" in errors && errors["password"] != "" {
        errors := errors["password" := ""];
      }
    }

    /** `handleInputChange('rememberMe', checked)`; no error is ever set for it. */
    method RememberMeChange(value: bool)
      modifies this
      ensures rememberMe == value && email == old(email) && password == old(password)
      ensures errors == (if "rememberMe" in old(errors) && old(errors)["rememberMe"] != "" then old(errors)["rememberMe" := ""] else old(errors))
      ensures isLoading == old(isLoading) && showPassword == old(showPassword)
    {
      rememberMe := value;
      if "rememberMe" in errors && errors["rememberMe"] != "" {
        errors := errors["rememberMe" := ""];
      }
    }

    method TogglePassword()
      modifies this
      ensures showPassword == !old(showPassword)
      ensures email == old(email) && password == old(password) && rememberMe == old(rememberMe)
      ensures errors == old(errors) && isLoading == old(isLoading)
    {
      showPassword := !showPassword;
    }

    /** The synchronous half of `handleSubmit`: the field errors are
        replaced by the validation result; a valid form raises the busy flag
        and goes on to the credential check. */
    method BeginSubmit() returns (valid: bool)
      modifies this
      ensures errors == Validate(old(email), old(password))
      ensures valid <==> errors == map[]
      ensures isLoading == (valid || old(isLoading))
      ensures email == old(email) && password == old(password) && rememberMe == old(rememberMe)
      ensures showPassword == old(showPassword)
    {
      errors := Validate(email, password);
      valid := errors == map[];
      if valid {
        isLoading := true;
      }
    }

    /** The half of `handleSubmit` after the simulated delay: exactly the
        listed pairs sign in; any other pair leaves only the general error.
        The busy flag drops either way. */
    method FinishSubmit() returns (signedIn: Option<StoredUser>)
      modifies this
      ensures Matches(credentials, old(email), old(password)) ==>
        signedIn == Some(StoredUser(old(email), old(rememberMe))) && errors == old(errors)
      ensures !Matches(credentials, old(email), old(password)) ==>
        signedIn == None && errors == map["general" := InvalidLogin]
      ensures !isLoading
      ensures email == old(email) && password == old(password) && rememberMe == old(rememberMe)
      ensures showPassword == old(showPassword)
    {
      if Matches(credentials, email, password) {
        signedIn := Some(StoredUser(email, rememberMe));
      } else {
        signedIn := None;
        errors := map["general" := InvalidLogin];
      }
      isLoading := false;
    }

    /** `handleSubmit` with the delay collapsed. An invalid form shows its
        field errors and signs nobody in; a valid one signs in exactly the
        listed pairs. */
    method Submit() returns (signedIn: Option<StoredUser>)
      modifies this
      ensures Validate(old(email), old(password)) != map[] ==>
        signedIn == None && errors == Validate(old(email), old(password)) && isLoading == old(isLoading)
      ensures Validate(old(email), old(password)) == map[] && Matches(credentials, old(email), old(password)) ==>
        signedIn == Some(StoredUser(old(email), old(rememberMe))) && errors == map[] && !isLoading
      ensures Validate(old(email), old(password)) == map[] && !Matches(credentials, old(email), old(password)) ==>
        signedIn == None && errors == map["general" := InvalidLogin] && !isLoading
      ensures email == old(email) && password == old(password) && rememberMe == old(rememberMe)
      ensures showPassword == old(showPassword)
    {
      var valid := BeginSubmit();
      if !valid {
        signedIn := None;
        return;
      }
      signedIn := FinishSubmit();
    }
  }

  /** An email with an '@' after a non-empty plain part and a dot with
      characters on both sides after it, and nothing but plain characters
      otherwise, matches the pattern. */
  lemma WellFormedEmail(e: string, at: nat, dot: nat)
    requires 0 < at && at + 1 < dot < |e| - 1 && e[at] == '@' && e[dot] == '.'
    requires forall j :: 0 <= j < |e| && j != at ==> Plain(e[j])
    ensures EmailPattern(e)
  {
    assert e[at + 1..][dot - at - 1] == '.';
    assert SplitAt(e, at);
  }

  /** A pair with a well-formed email and a long enough password passes. */
  lemma PairPasses(e: string, p: string, at: nat, dot: nat)
    requires 0 < at && at + 1 < dot < |e| - 1 && e[at] == '@' && e[dot] == '.'
    requires forall j :: 0 <= j < |e| && j != at ==> Plain(e[j])
    requires |p| >= 6 && !IsSpace(p[0])
    ensures Validate(e, p) == map[]
  {
    WellFormedEmail(e, at, dot);
    ValidateIffFieldsPass(e, p);
  }

  /** Every demo pair passes validation, so each one can sign in. */
  lemma DemoCredentialsValidate(i: nat)
    requires i < |DemoCredentials|
    ensures Validate(DemoCredentials[i].0, DemoCredentials[i].1) == map[]
  {
    if i == 0 {
      PairPasses("demo@taskmind.ai", "demo123", 4, 13);
    } else if i == 1 {
      PairPasses("admin@taskmind.ai", "admin123", 5, 14);
    } else {
      PairPasses("user@taskmind.ai", "user123", 4, 13);
    }
  }
}
