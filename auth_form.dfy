/**
 The sign-in / sign-up form (src/components/auth/AuthForm.tsx): its three text
 fields, the per-field error map it shows, and its loading flag. The JSX is
 left out; `mode` is a property the page passes in, so it is a parameter of
 the operations that read it.
 */
module AuthFormModel {
  import opened Types
  import opened Text
  import Auth

  datatype Mode = LoginMode | RegisterMode

  /** The input whose `name` attribute a change event carries. */
  datatype Field = EmailField | PasswordField | NameField

  /** How the awaited `onSubmit` call ends: it resolves to a boolean, or it throws. */
  datatype SubmitOutcome = Resolved(success: bool) | Threw

  /** The arguments `onSubmit` is called with. */
  datatype Credentials = Credentials(email: string, password: string, name: string)

  const EmailKey := "email"
  const PasswordKey := "password"
  const NameKey := "name"
  const GeneralKey := "general"

  const EmailRequired := "Email is required"
  const EmailInvalid := "Please enter a valid email"
  const PasswordRequired := "Password is required"
  const PasswordTooShort := "Password must be at least 6 characters"
  const NameRequired := "Name is required"
  const AuthFailed := "Authentication failed. Please try again."
  const ErrorOccurred := "An error occurred. Please try again."

  function FieldKey(field: Field): string {
    match field
    case EmailField => EmailKey
    case PasswordField => PasswordKey
    case NameField => NameKey
  }

  predicate NoSpaceIn(s: string, lo: nat, hi: nat)
    requires lo <= hi <= |s|
  {
    forall k | lo <= k < hi :: !IsSpace(s[k])
  }

  /**
   The unanchored regular expression `\S+@\S+\.\S+` matches somewhere in `s`:
   a non-space character, '@', one or more non-space characters, '.', and a
   non-space character, in a row.
   */
  predicate EmailPattern(s: string) {
    exists at: nat, dot: nat | 1 <= at && at + 1 < dot && dot + 1 < |s| :: MatchesAt(s, at, dot)
  }

  /** The shortest match: '@' at `at` and '.' at `dot`, with their non-space neighbours. */
  predicate MatchesAt(s: string, at: nat, dot: nat)
    requires 1 <= at && at + 1 < dot && dot + 1 < |s|
  {
    !IsSpace(s[at - 1]) && s[at] == '@' && NoSpaceIn(s, at + 1, dot) && s[dot] == '.' && !IsSpace(s[dot + 1])
  }

  /** A match needs at least five characters, among them '@' and '.'. */
  lemma EmailPatternShape(s: string)
    requires EmailPattern(s)
    ensures |s| >= 5 && '@' in s && '.' in s
  {
    var at: nat, dot: nat :| 1 <= at && at + 1 < dot && dot + 1 < |s| && MatchesAt(s, at, dot);
    assert s[at] in s && s[dot] in s;
  }

  /** The pattern is not anchored: text around a match does not spoil it. */
  lemma EmailPatternUnanchored(prefix: string, s: string, suffix: string)
    requires EmailPattern(s)
    ensures EmailPattern(prefix + s + suffix)
  {
    var at: nat, dot: nat :| 1 <= at && at + 1 < dot && dot + 1 < |s| && MatchesAt(s, at, dot);
    var t := prefix + s + suffix;
    var n := |prefix|;
    assert forall k | 0 <= k < |s| :: t[n + k] == s[k];
    assert NoSpaceIn(t, n + at + 1, n + dot) by {
      forall k | n + at + 1 <= k < n + dot ensures !IsSpace(t[k]) {
        assert t[k] == s[k - n];
      }
    }
    assert t[n + at - 1] == s[at - 1] && t[n + at] == s[at] && t[n + dot] == s[dot] && t[n + dot + 1] == s[dot + 1];
    assert MatchesAt(t, n + at, n + dot);
  }

  /** An ordinary address matches. */
  lemma TypicalAddressMatches()
    ensures EmailPattern("user@example.com")
  {
    var s := "user@example.com";
    assert NoSpaceIn(s, 5, 12);
    assert MatchesAt(s, 4, 12);
  }

  /** An address without a dot after the '@' does not. */
  lemma MissingDotFails()
    ensures !EmailPattern("user@example")
  {
    var s := "user@example";
    assert forall i | 0 <= i < |s| :: s[i] != '.';
  }

  /**
   The error map `validateForm` builds: at most one message per field, the
   email either missing or not matching the pattern, the password missing or
   shorter than 6 UTF-16 units, and the name required only when registering.
   */
  function FormErrors(mode: Mode, email: string, password: string, name: string): (r: map<string, string>)
    ensures EmailKey in r <==> email == "" || !EmailPattern(email)
    ensures EmailKey in r ==> r[EmailKey] == if email == "" then EmailRequired else EmailInvalid
    ensures PasswordKey in r <==> Utf16Length(password) < 6
    ensures PasswordKey in r ==> r[PasswordKey] == if password == "" then PasswordRequired else PasswordTooShort
    ensures NameKey in r <==> mode == RegisterMode && name == ""
    ensures NameKey in r ==> r[NameKey] == NameRequired
    ensures r.Keys <= {EmailKey, PasswordKey, NameKey}
  {
    var none: map<string, string> := map[];
    var withEmail :=
      if email == "" then none[EmailKey := EmailRequired]
      else if !EmailPattern(email) then none[EmailKey := EmailInvalid]
      else none;
    var withPassword :=
      if password == "" then withEmail[PasswordKey := PasswordRequired]
      else if Utf16Length(password) < 6 then withEmail[PasswordKey := PasswordTooShort]
      else withEmail;
    if mode == RegisterMode && name == "" then withPassword[NameKey := NameRequired] else withPassword
  }

  /** The form validates exactly when every rule passes. */
  lemma FormValidIff(mode: Mode, email: string, password: string, name: string)
    ensures FormErrors(mode, email, password, name) == map[] <==>
              email != "" && EmailPattern(email) && Utf16Length(password) >= 6 &&
              (mode == RegisterMode ==> name != "")
  {
  }

  /**
   Whatever the form lets through is accepted by the mock backend the page
   dispatches to: `register` when registering with a name, `login` otherwise.
   So, through that page, a validated submission never resolves to false.
   */
  lemma ValidFormIsAccepted(mode: Mode, email: string, password: string, name: string)
    requires FormErrors(mode, email, password, name) == map[]
    ensures mode == RegisterMode && name != "" ==> Auth.RegisterAccepted(email, password, name)
    ensures !(mode == RegisterMode && name != "") ==> Auth.LoginAccepted(email, password)
  {
  }

  class AuthForm {
    var email: string
    var password: string
    var name: string
    var errors: map<string, string>
    var isLoading: bool

    constructor ()
      ensures email == "" && password == "" && name == ""
      ensures errors == map[] && !isLoading
    {
      email, password, name := "", "", "";
      errors := map[];
      isLoading := false;
    }

    /** `validateForm`: replaces the error map with the one the rules give, and reports whether it is empty. */
    method ValidateForm(mode: Mode) returns (valid: bool)
      modifies this`errors
      ensures errors == FormErrors(mode, email, password, name)
      ensures valid == (errors == map[])
    {
      var newErrors: map<string, string> := map[];
      if email == "" {
        newErrors := newErrors[EmailKey := EmailRequired];
      } else if !EmailPattern(email) {
        newErrors := newErrors[EmailKey := EmailInvalid];
      }
      if password == "" {
        newErrors := newErrors[PasswordKey := PasswordRequired];
      } else if Utf16Length(password) < 6 {
        newErrors := newErrors[PasswordKey := PasswordTooShort];
      }
      if mode == RegisterMode && name == "" {
        newErrors := newErrors[NameKey := NameRequired];
      }
      errors := newErrors;
      valid := |newErrors| == 0;
      assert valid ==> newErrors == map[] by {
        if valid {
          assert newErrors.Keys == {};
        }
      }
    }

    /**
     `handleSubmit`: an invalid form shows its errors and calls nothing. A
     valid one calls `onSubmit` with the three fields; a false result or a
     throw replaces the errors by one general message, and loading ends.
     */
    method HandleSubmit(mode: Mode, outcome: SubmitOutcome) returns (request: Option<Credentials>)
      modifies this`errors, this`isLoading
      ensures request.Some? <==> FormErrors(mode, email, password, name) == map[]
      ensures request.None? ==> errors == FormErrors(mode, email, password, name) && isLoading == old(isLoading)
      ensures request.Some? ==> request.value == Credentials(email, password, name) && !isLoading
      ensures request.Some? && outcome == Resolved(true) ==> errors == map[]
      ensures request.Some? && outcome == Resolved(false) ==> errors == map[GeneralKey := AuthFailed]
      ensures request.Some? && outcome == Threw ==> errors == map[GeneralKey := ErrorOccurred]
    {
      var valid := ValidateForm(mode);
      if !valid {
        return None;
      }
      isLoading := true;
      request := Some(Credentials(email, password, name));
      match outcome {
        case Resolved(success) =>
          if !success {
            errors := map[GeneralKey := AuthFailed];
          }
        case Threw =>
          errors := map[GeneralKey := ErrorOccurred];
      }
      isLoading := false;
    }

    /**
     `handleChange`: stores the new value in its own field only, and blanks
     that field's error if one is showing; every other error stays as it was.
     */
    method HandleChange(field: Field, value: string)
      modifies this`email, this`password, this`name, this`errors
      ensures email == (if field == EmailField then value else old(email))
      ensures password == (if field == PasswordField then value else old(password))
      ensures name == (if field == NameField then value else old(name))
      ensures var key := FieldKey(field);
              errors == if key in old(errors) && old(errors)[key] != "" then old(errors)[key := ""] else old(errors)
      ensures errors.Keys == old(errors).Keys
      ensures forall k | k in old(errors) && k != FieldKey(field) :: errors[k] == old(errors)[k]
    {
      match field {
        case EmailField => email := value;
        case PasswordField => password := value;
        case NameField => name := value;
      }
      var key := FieldKey(field);
      if key in errors && errors[key] != "" {
        errors := errors[key := ""];
      }
    }
  }
}
