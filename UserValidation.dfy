/**
 * The user form's data and its validation chain, shared word for word by
 * `app/component/AddUserForm.tsx` and `app/component/AddUserModal.tsx`:
 * name, then email, then password, then mobile number; the first failing
 * check decides the error message.
 */
module UserValidation {
  import opened Wrappers
  import opened Text

  /** The `name` attribute of the input an `onChange` comes from. */
  datatype UserField = NameField | EmailField | PasswordField | MobileField

  /** `formData`: the four input values. */
  datatype UserForm = UserForm(name: string, email: string, password: string, mobile: string)
  {
    function Get(field: UserField): string {
      match field
      case NameField => name
      case EmailField => email
      case PasswordField => password
      case MobileField => mobile
    }

    /** `{ ...prev, [name]: value }`: the named field takes the value and
        every other field keeps its own. */
    function With(field: UserField, value: string): (r: UserForm)
      ensures r.Get(field) == value
      ensures forall g :: g != field ==> r.Get(g) == Get(g)
    {
      match field
      case NameField => this.(name := value)
      case EmailField => this.(email := value)
      case PasswordField => this.(password := value)
      case MobileField => this.(mobile := value)
    }
  }

  const EmptyUserForm: UserForm := UserForm("", "", "", "")

  const NameRequired: string := "Name is required"
  const EmailInvalid: string := "Valid email is required"
  const PasswordTooShort: string := "Password must be at least 6 characters"
  const MobileInvalid: string := "Valid 10-digit mobile number is required"
  const MinPasswordLength: nat := 6
  const MobileDigits: nat := 10

  // ---------------------------------------------------------------------
  // The email pattern ^[^\s@]+@[^\s@]+\.[^\s@]+$

  predicate NoSpace(s: string) {
    forall i :: 0 <= i < |s| ==> !IsSpace(s[i])
  }

  /** `[^\s@]+` */
  predicate Atom(s: string) {
    |s| > 0 && forall i :: 0 <= i < |s| ==> !IsSpace(s[i]) && s[i] != '@'
  }

  /** The pattern matches with its `@` at index `at` and its `\.` at index `dot`. */
  ghost predicate EmailSplit(s: string, at: int, dot: int) {
    && 0 <= at < dot < |s|
    && s[at] == '@' && s[dot] == '.'
    && Atom(s[..at]) && Atom(s[at + 1..dot]) && Atom(s[dot + 1..])
  }

  /** `/^[^\s@]+@[^\s@]+\.[^\s@]+$/.test(s)`, read as the regex reads. */
  ghost predicate EmailPattern(s: string) {
    exists at, dot :: EmailSplit(s, at, dot)
  }

  /** Index of the first `c` in `s`, or `|s|` when there is none. */
  function IndexOf(s: string, c: char): (i: nat)
    ensures i <= |s|
    ensures i < |s| ==> s[i] == c
    ensures forall j :: 0 <= j < i ==> s[j] != c
  {
    if s == [] then 0
    else if s[0] == c then 0
    else 1 + IndexOf(s[1..], c)
  }

  /** The hand-written decision: no whitespace; exactly one `@`, not in
      first position; and the part after it holds a `.` that is neither its
      first nor its last character. */
  predicate ValidEmail(s: string) {
    var at := IndexOf(s, '@');
    && NoSpace(s)
    && 0 < at < |s|
    && '@' !in s[at + 1..]
    && var domain := s[at + 1..];
       |domain| >= 3 && '.' in domain[1..|domain| - 1]
  }

  /** A plain address passes. */
  lemma EmailAcceptedExample()
    ensures ValidEmail("a@b.co")
  {
    assert IndexOf("a@b.co", '@') == 1;
    assert "a@b.co"[2..][1..3] == ".c";
  }

  /** No dot inside the domain, a dot right after the `@`, an empty local
      part, a second `@`, or a space: each one is refused. */
  lemma EmailRejectedExamples()
    ensures !ValidEmail("a@b") && !ValidEmail("a@.b") && !ValidEmail("@b.co")
    ensures !ValidEmail("a@@b.co") && !ValidEmail("a b@c.de")
  {
    assert IndexOf("a@.b", '@') == 1;
    assert IndexOf("a@@b.co", '@') == 1;
    assert IsSpace("a b@c.de"[1]);
  }

  /** The hand-written decision accepts exactly what the regex accepts. */
  lemma ValidEmailIffPattern(s: string)
    ensures ValidEmail(s) <==> EmailPattern(s)
  {
    if ValidEmail(s) {
      var at := IndexOf(s, '@');
      var domain := s[at + 1..];
      var inner := domain[1..|domain| - 1];
      var k :| 0 <= k < |inner| && inner[k] == '.';
      var dot := at + 2 + k;
      assert s[dot] == '.';
      forall i | 0 <= i < |s| && i != at
        ensures !IsSpace(s[i]) && s[i] != '@'
      {
        if i > at {
          assert s[i] == domain[i - at - 1];
        }
      }
      assert Atom(s[..at]);
      assert Atom(s[at + 1..dot]);
      assert Atom(s[dot + 1..]);
      assert EmailSplit(s, at, dot);
    }
    if EmailPattern(s) {
      var at, dot :| EmailSplit(s, at, dot);
      forall i | 0 <= i < |s| && i != at
        ensures !IsSpace(s[i]) && s[i] != '@'
      {
        if i < at {
          assert s[i] == s[..at][i];
        } else if at < i < dot {
          assert s[i] == s[at + 1..dot][i - at - 1];
        } else if dot < i {
          assert s[i] == s[dot + 1..][i - dot - 1];
        }
      }
      assert IndexOf(s, '@') == at;
      var domain := s[at + 1..];
      assert domain[dot - at - 1] == '.';
      assert domain[1..|domain| - 1][dot - at - 2] == '.';
    }
  }

  /** `!email.trim() || !pattern.test(email)` is false: the email check passes. */
  predicate EmailAccepted(email: string) {
    !IsBlank(email) && ValidEmail(email)
  }

  /** The blank test in front of the pattern never decides anything: the
      email check passes exactly when the regex matches. */
  lemma EmailAcceptedIffPattern(email: string)
    ensures EmailAccepted(email) <==> EmailPattern(email)
  {
    ValidEmailIffPattern(email);
    if ValidEmail(email) {
      assert !IsSpace(email[IndexOf(email, '@')]);
    }
  }

  // ---------------------------------------------------------------------
  // Password and mobile number

  /** `!(!password.trim() || password.length < 6)`: the length is untrimmed. */
  predicate PasswordAccepted(password: string) {
    !IsBlank(password) && |password| >= MinPasswordLength
  }

  /** Read against the source's own test: a password passes exactly when
      `password.trim()` is non-empty and the untrimmed length is at least six. */
  lemma PasswordAcceptedIff(password: string)
    ensures PasswordAccepted(password) <==> Trim(password) != [] && |password| >= MinPasswordLength
  {
    TrimEmptyIffAllSpace(password);
  }

  /** `/^\d{10}$/.test(d)` */
  predicate TenDigits(d: string) {
    |d| == MobileDigits && forall i :: 0 <= i < |d| ==> IsDigit(d[i])
  }

  /** `!(!mobile.trim() || !/^\d{10}$/.test(mobile.replace(/\D/g, "")))` */
  predicate MobileAccepted(mobile: string) {
    !IsBlank(mobile) && TenDigits(Digits(mobile))
  }

  /** A mobile number passes exactly when it holds ten digits; every other
      character is ignored, and the blank test in front decides nothing. */
  lemma MobileAcceptedIff(mobile: string)
    ensures MobileAccepted(mobile) <==> |Digits(mobile)| == MobileDigits
  {
  }

  /** Two inputs with the same digits get the same verdict, whatever
      separators they carry. */
  lemma MobileOnlyDigitsMatter(a: string, b: string)
    requires Digits(a) == Digits(b)
    ensures MobileAccepted(a) <==> MobileAccepted(b)
  {
  }

  // ---------------------------------------------------------------------
  // The chain

  /** The message the submit handler sets, or None when every check passes. */
  function UserError(f: UserForm): (r: Option<string>)
    ensures r == None <==>
              !IsBlank(f.name) && EmailAccepted(f.email) &&
              PasswordAccepted(f.password) && MobileAccepted(f.mobile)
    ensures r == Some(NameRequired) <==> IsBlank(f.name)
    ensures r == Some(EmailInvalid) <==> !IsBlank(f.name) && !EmailAccepted(f.email)
    ensures r == Some(PasswordTooShort) <==>
              !IsBlank(f.name) && EmailAccepted(f.email) && !PasswordAccepted(f.password)
    ensures r == Some(MobileInvalid) <==>
              !IsBlank(f.name) && EmailAccepted(f.email) &&
              PasswordAccepted(f.password) && !MobileAccepted(f.mobile)
  {
    if IsBlank(f.name) then Some(NameRequired)
    else if !EmailAccepted(f.email) then Some(EmailInvalid)
    else if !PasswordAccepted(f.password) then Some(PasswordTooShort)
    else if !MobileAccepted(f.mobile) then Some(MobileInvalid)
    else None
  }
}
