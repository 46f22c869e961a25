/**
 The registration form: its validation schema (a chain of rules per field),
 the password-mismatch guard on the submit button, the error flags its inputs
 show, and the form state that a submission dispatches and resets.
 */
module Registration {
  import opened Wrappers

  // ---------------------------------------------------------------------------
  // Field values
  // ---------------------------------------------------------------------------

  datatype FormValues = FormValues(username: string, email: string, password: string, password2: string)

  datatype Field = Username | Email | Password | Password2

  /** The initial values of the form: every field empty. */
  function InitialValues(): (v: FormValues)
    ensures forall f :: Value(v, f) == ""
  {
    FormValues("", "", "", "")
  }

  /** The name of a field in the schema, and so its key in the error map. */
  function Key(f: Field): string
  {
    match f
    case Username => "username"
    case Email => "email"
    case Password => "password"
    case Password2 => "password2"
  }

  function SchemaKeys(): set<string>
  {
    {"username", "email", "password", "password2"}
  }

  function Value(v: FormValues, f: Field): string
  {
    match f
    case Username => v.username
    case Email => v.email
    case Password => v.password
    case Password2 => v.password2
  }

  /** The values after the input of field `f` changes to `text`. */
  function With(v: FormValues, f: Field, text: string): (w: FormValues)
    ensures Value(w, f) == text
    ensures forall g :: g != f ==> Value(w, g) == Value(v, g)
  {
    match f
    case Username => v.(username := text)
    case Email => v.(email := text)
    case Password => v.(password := text)
    case Password2 => v.(password2 := text)
  }

  // ---------------------------------------------------------------------------
  // The password pattern ^(?=.*\d)(?=.*[a-z])(?=.*[A-Z]),?[\s\S]{6,12}$
  // ---------------------------------------------------------------------------

  /** The characters `.` does not match. */
  predicate LineTerminator(c: char)
  {
    c == '\n' || c == '\r' || c == '\U{2028}' || c == '\U{2029}'
  }

  datatype CharClass = Digit | Lower | Upper

  /** `\d`, `[a-z]` and `[A-Z]`. */
  predicate InClass(c: char, cls: CharClass)
  {
    match cls
    case Digit => '0' <= c <= '9'
    case Lower => 'a' <= c <= 'z'
    case Upper => 'A' <= c <= 'Z'
  }

  /** The lookahead `(?=.*X)` at the start: an `X` preceded only by non-terminators. */
  predicate Lookahead(s: string, cls: CharClass)
  {
    exists k :: 0 <= k < |s| && InClass(s[k], cls) && forall j :: 0 <= j < k ==> !LineTerminator(s[j])
  }

  /** `,?[\s\S]{6,12}$`: an optional comma, then 6 to 12 arbitrary characters to the end. */
  predicate CommaThenSpan(s: string)
  {
    6 <= |s| <= 12 || (|s| > 0 && s[0] == ',' && 6 <= |s| - 1 <= 12)
  }

  predicate PasswordPattern(s: string)
  {
    Lookahead(s, Digit) && Lookahead(s, Lower) && Lookahead(s, Upper) && CommaThenSpan(s)
  }

  // ---------------------------------------------------------------------------
  // The validation schema
  // ---------------------------------------------------------------------------

  datatype Rule =
    | Required
    | MinLength(n: nat)
    | MaxLength(n: nat)
    | EmailFormat
    | MatchesPassword
    | OneOfRef(other: Field)

  /** The rule chain of each field, in the order the schema lists them; every field is required. */
  function Schema(f: Field): (rules: seq<Rule>)
    ensures Required in rules
  {
    match f
    case Username => [MinLength(2), MaxLength(20), Required]
    case Email => [EmailFormat, MinLength(6), MaxLength(25), Required]
    case Password => [MinLength(6), MaxLength(12), Required, MatchesPassword]
    case Password2 => [OneOfRef(Password), Required]
  }

  /**
   Whether `rule` accepts the value of field `f`. The form hands an empty input
   to the schema as an absent value, which every rule but `Required` accepts.
   `isEmail` is the schema library's own e-mail syntax test.
   */
  predicate RulePasses(rule: Rule, f: Field, v: FormValues, isEmail: string -> bool)
  {
    var s := Value(v, f);
    match rule
    case Required => s != ""
    case MinLength(n) => s == "" || |s| >= n
    case MaxLength(n) => s == "" || |s| <= n
    case EmailFormat => s == "" || isEmail(s)
    case MatchesPassword => s == "" || PasswordPattern(s)
    case OneOfRef(other) => s == "" || s == Value(v, other)
  }

  predicate FieldPasses(f: Field, v: FormValues, isEmail: string -> bool)
  {
    forall i :: 0 <= i < |Schema(f)| ==> RulePasses(Schema(f)[i], f, v, isEmail)
  }

  /** The keys of the error map: the fields whose rule chain fails. */
  function Validate(v: FormValues, isEmail: string -> bool): (errors: set<string>)
    ensures errors <= SchemaKeys()
    ensures forall f :: Key(f) in errors <==> !FieldPasses(f, v, isEmail)
  {
    (if FieldPasses(Username, v, isEmail) then {} else {"username"}) +
    (if FieldPasses(Email, v, isEmail) then {} else {"email"}) +
    (if FieldPasses(Password, v, isEmail) then {} else {"password"}) +
    (if FieldPasses(Password2, v, isEmail) then {} else {"password2"})
  }

  // ---------------------------------------------------------------------------
  // What each field's rules amount to
  // ---------------------------------------------------------------------------

  predicate UsernameOk(u: string)
  {
    2 <= |u| <= 20
  }

  predicate EmailOk(e: string, isEmail: string -> bool)
  {
    6 <= |e| <= 25 && isEmail(e)
  }

  predicate Contains(s: string, cls: CharClass)
  {
    exists k :: 0 <= k < |s| && InClass(s[k], cls)
  }

  /** What the password rules are meant to demand. */
  predicate PasswordOk(p: string)
  {
    6 <= |p| <= 12 && Contains(p, Digit) && Contains(p, Lower) && Contains(p, Upper)
  }

  predicate Password2Ok(p: string, p2: string)
  {
    p2 != "" && p2 == p
  }

  lemma UsernameRules(v: FormValues, isEmail: string -> bool)
    ensures FieldPasses(Username, v, isEmail) <==> UsernameOk(v.username)
  {
    assert FieldPasses(Username, v, isEmail) ==>
      RulePasses(Schema(Username)[0], Username, v, isEmail) &&
      RulePasses(Schema(Username)[1], Username, v, isEmail) &&
      RulePasses(Schema(Username)[2], Username, v, isEmail);
  }

  lemma EmailRules(v: FormValues, isEmail: string -> bool)
    ensures FieldPasses(Email, v, isEmail) <==> EmailOk(v.email, isEmail)
  {
    assert FieldPasses(Email, v, isEmail) ==>
      RulePasses(Schema(Email)[0], Email, v, isEmail) &&
      RulePasses(Schema(Email)[1], Email, v, isEmail) &&
      RulePasses(Schema(Email)[2], Email, v, isEmail) &&
      RulePasses(Schema(Email)[3], Email, v, isEmail);
  }

  /** The comma the pattern admits only lengthens a match to 13 characters. */
  lemma CommaOnlyAdmitsThirteen(s: string)
    requires CommaThenSpan(s) && !(6 <= |s| <= 12)
    ensures |s| == 13 && s[0] == ','
  {
  }

  /** A password the rules accept has the meant length and character classes. */
  lemma PasswordRulesSound(v: FormValues, isEmail: string -> bool)
    requires FieldPasses(Password, v, isEmail)
    ensures PasswordOk(v.password)
  {
    var p := v.password;
    assert RulePasses(Schema(Password)[0], Password, v, isEmail);
    assert RulePasses(Schema(Password)[1], Password, v, isEmail);
    assert RulePasses(Schema(Password)[2], Password, v, isEmail);
    assert RulePasses(Schema(Password)[3], Password, v, isEmail);
    assert PasswordPattern(p);
    var d :| 0 <= d < |p| && InClass(p[d], Digit) && forall j :: 0 <= j < d ==> !LineTerminator(p[j]);
    var l :| 0 <= l < |p| && InClass(p[l], Lower) && forall j :: 0 <= j < l ==> !LineTerminator(p[j]);
    var u :| 0 <= u < |p| && InClass(p[u], Upper) && forall j :: 0 <= j < u ==> !LineTerminator(p[j]);
  }

  /**
   For a password on one line, the rules accept exactly the meant passwords:
   6 to 12 characters with a digit, a lower-case and an upper-case letter.
   */
  lemma PasswordRulesComplete(v: FormValues, isEmail: string -> bool)
    requires forall j :: 0 <= j < |v.password| ==> !LineTerminator(v.password[j])
    ensures FieldPasses(Password, v, isEmail) <==> PasswordOk(v.password)
  {
    if FieldPasses(Password, v, isEmail) {
      PasswordRulesSound(v, isEmail);
    }
    if PasswordOk(v.password) {
      var p := v.password;
      var d :| 0 <= d < |p| && InClass(p[d], Digit);
      var l :| 0 <= l < |p| && InClass(p[l], Lower);
      var u :| 0 <= u < |p| && InClass(p[u], Upper);
      assert PasswordPattern(p);
    }
  }

  /**
   A line break hides what follows it from the lookaheads: "abcDEF", a line
   terminator, then "1" has a digit, a lower-case and an upper-case letter and a
   valid length, and is refused. With U+2028 as the terminator, a password input
   lets this value through to the schema.
   */
  lemma LineBreakHidesDigit(sep: char, isEmail: string -> bool)
    requires LineTerminator(sep)
    ensures var v := FormValues("", "", "abcDEF" + [sep] + "1", "");
      PasswordOk(v.password) && !FieldPasses(Password, v, isEmail)
  {
    var v := FormValues("", "", "abcDEF" + [sep] + "1", "");
    var p := v.password;
    assert InClass(p[7], Digit) && InClass(p[0], Lower) && InClass(p[3], Upper);
    assert LineTerminator(p[6]);
    assert !Lookahead(p, Digit) by {
      forall k | 0 <= k < |p| && InClass(p[k], Digit)
        ensures exists j :: 0 <= j < k && LineTerminator(p[j])
      {
        assert k == 7;
      }
    }
    assert !RulePasses(Schema(Password)[3], Password, v, isEmail);
  }

  lemma Password2Rules(v: FormValues, isEmail: string -> bool)
    ensures FieldPasses(Password2, v, isEmail) <==> Password2Ok(v.password, v.password2)
  {
    assert FieldPasses(Password2, v, isEmail) ==>
      RulePasses(Schema(Password2)[0], Password2, v, isEmail) &&
      RulePasses(Schema(Password2)[1], Password2, v, isEmail);
  }

  /** The empty form fails every field, on its `Required` rule. */
  lemma InitialValuesInvalid(isEmail: string -> bool)
    ensures Validate(InitialValues(), isEmail) == SchemaKeys()
  {
    var v := InitialValues();
    forall f: Field
      ensures !FieldPasses(f, v, isEmail)
    {
      var i := if f == Password then 2 else |Schema(f)| - 1;
      assert Schema(f)[i] == Required;
    }
    assert Key(Username) in Validate(v, isEmail);
    assert Key(Email) in Validate(v, isEmail);
    assert Key(Password) in Validate(v, isEmail);
    assert Key(Password2) in Validate(v, isEmail);
  }

  // ---------------------------------------------------------------------------
  // Mismatch guard and error flags
  // ---------------------------------------------------------------------------

  /** The submit button is disabled while the two passwords differ. */
  predicate SubmitDisabled(v: FormValues)
  {
    v.password != v.password2
  }

  /** The "Passwords do not match" warning is rendered while the two passwords differ. */
  predicate MismatchWarningShown(v: FormValues)
  {
    v.password != v.password2
  }

  /**
   The warning and the disabled button go together, and both only when the
   schema already fails the confirmation field: the guard is redundant.
   */
  lemma MismatchGuardRedundant(v: FormValues, isEmail: string -> bool)
    ensures MismatchWarningShown(v) <==> SubmitDisabled(v)
    ensures SubmitDisabled(v) ==> Key(Password2) in Validate(v, isEmail)
  {
    if SubmitDisabled(v) {
      Password2Rules(v, isEmail);
    }
  }

  /** The key of the error map an input reads its error flag and helper text from. */
  function ErrorKey(f: Field): (key: string)
    ensures f != Password2 ==> key == Key(f)
    ensures f == Password2 ==> key !in SchemaKeys()
  {
    match f
    case Username => "username"
    case Email => "email"
    case Password => "password"
    case Password2 => "confirmPassword"
  }

  predicate Flagged(errors: set<string>, f: Field)
  {
    ErrorKey(f) in errors
  }

  /** The helper text under an input; the password hint depends on the layout. */
  function HelperText(errors: set<string>, f: Field, isMobile: bool): (text: Option<string>)
    ensures text.Some? <==> Flagged(errors, f)
  {
    if !Flagged(errors, f) then None
    else match f
      case Username => Some("Please enter your name")
      case Email => Some("Please enter a valid email address")
      case Password =>
        if isMobile then Some("Password must contain one uppercase letter, one lowercase letter, one number")
        else Some("Password must contain at least 6 and up to 12 characters")
      case Password2 => Some("Please enter your valid password")
  }

  /**
   The username, e-mail and password inputs are flagged exactly when their rules
   fail; the confirmation input reads a key the schema never produces and is
   never flagged, not even when the passwords differ.
   */
  lemma ErrorFlags(v: FormValues, f: Field, isEmail: string -> bool)
    ensures f != Password2 ==> (Flagged(Validate(v, isEmail), f) <==> !FieldPasses(f, v, isEmail))
    ensures f == Password2 ==> !Flagged(Validate(v, isEmail), f)
  {
  }

  // ---------------------------------------------------------------------------
  // Form state and submission
  // ---------------------------------------------------------------------------

  /** The registration request: the confirmation field has no place in it. */
  datatype Payload = Payload(username: string, password: string, email: string)

  function PayloadOf(v: FormValues): Payload
  {
    Payload(v.username, v.password, v.email)
  }

  /** How the registration request settles. */
  datatype Outcome = Registered(username: string) | Rejected(messages: seq<string>)

  class RegistrationForm {
    var values: FormValues
    var errors: set<string>
    /** The registration requests dispatched so far. */
    var requests: seq<Payload>

    /** The error map only holds schema keys, so the confirmation input is never flagged. */
    ghost predicate Valid()
      reads this
      ensures Valid() ==> !Flagged(errors, Password2)
    {
      errors <= SchemaKeys()
    }

    constructor ()
      ensures Valid() && !Flagged(errors, Password2)
      ensures values == InitialValues() && errors == {} && requests == []
    {
      values := InitialValues();
      errors := {};
      requests := [];
    }

    /** Typing in an input: the value changes and the whole schema is re-run. */
    method HandleChange(f: Field, text: string, isEmail: string -> bool)
      requires Valid()
      modifies this
      ensures Valid() && !Flagged(errors, Password2)
      ensures values == With(old(values), f, text)
      ensures errors == Validate(values, isEmail)
      ensures requests == old(requests)
    {
      values := With(values, f, text);
      errors := Validate(values, isEmail);
    }

    method ResetForm()
      modifies this
      ensures Valid() && !Flagged(errors, Password2)
      ensures values == InitialValues() && errors == {}
      ensures requests == old(requests)
    {
      values := InitialValues();
      errors := {};
    }

    /**
     The submit handler: dispatches the payload, resets the form, and resets it
     once more when the request succeeds; the form ends empty either way.
     */
    method OnSubmit(outcome: Outcome)
      modifies this
      ensures Valid() && !Flagged(errors, Password2)
      ensures requests == old(requests) + [PayloadOf(old(values))]
      ensures values == InitialValues() && errors == {}
    {
      requests := requests + [PayloadOf(values)];
      ResetForm();
      if outcome.Registered? {
        ResetForm();
      }
    }

    /**
     A click on the submit button. A disabled button does nothing; otherwise the
     schema runs, and the submit handler runs only when no field fails.
     */
    method Submit(isEmail: string -> bool, outcome: Outcome) returns (sent: Option<Payload>)
      requires Valid()
      modifies this
      ensures Valid() && !Flagged(errors, Password2)
      ensures sent.Some? <==> !SubmitDisabled(old(values)) && Validate(old(values), isEmail) == {}
      ensures sent.Some? ==> sent.value == PayloadOf(old(values)) && requests == old(requests) + [sent.value]
      ensures sent.Some? ==> values == InitialValues() && errors == {}
      ensures sent.None? ==> values == old(values) && requests == old(requests)
      ensures sent.None? && !SubmitDisabled(old(values)) ==> errors == Validate(values, isEmail)
      ensures SubmitDisabled(old(values)) ==> errors == old(errors)
    {
      if SubmitDisabled(values) {
        return None;
      }
      errors := Validate(values, isEmail);
      if errors != {} {
        return None;
      }
      sent := Some(PayloadOf(values));
      OnSubmit(outcome);
    }
  }

  /**
   A request is dispatched only for values every field rule accepts, and what
   is dispatched carries the username, password and e-mail of those values.
   */
  lemma DispatchedOnlyWhenValid(v: FormValues, isEmail: string -> bool)
    requires !SubmitDisabled(v) && Validate(v, isEmail) == {}
    ensures UsernameOk(v.username) && EmailOk(v.email, isEmail) && PasswordOk(v.password)
    ensures Password2Ok(v.password, v.password2)
  {
    UsernameRules(v, isEmail);
    EmailRules(v, isEmail);
    assert Key(Password) !in Validate(v, isEmail);
    PasswordRulesSound(v, isEmail);
    Password2Rules(v, isEmail);
  }
}
