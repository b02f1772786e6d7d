/**
 * The contact form: four text fields, three error flags, a status snackbar,
 * client-side validation (trimmed-empty name and message, an e-mail pattern)
 * and a submit whose single network request is reduced to its outcome.
 */
module Contact {
  import opened Wrappers

  // ---------------------------------------------------------------- strings

  /**
   * The characters JavaScript treats as white space in `String.prototype.trim`
   * and in the regular-expression class `\s`: WhiteSpace and LineTerminator.
   */
  predicate IsWhitespace(c: char) {
    || c == '\t' || c == '\n' || c == '\U{000B}' || c == '\U{000C}' || c == '\r' || c == ' '
    || c == '\U{00A0}' || c == '\U{1680}' || ('\U{2000}' <= c <= '\U{200A}')
    || c == '\U{2028}' || c == '\U{2029}' || c == '\U{202F}' || c == '\U{205F}'
    || c == '\U{3000}' || c == '\U{FEFF}'
  }

  predicate AllWhitespace(s: string) {
    forall i :: 0 <= i < |s| ==> IsWhitespace(s[i])
  }

  /** Drops leading white space: what is left is a suffix of the input. */
  function TrimStart(s: string): (r: string)
    ensures |r| <= |s| && r == s[|s| - |r|..]
    decreases |s|
  {
    if |s| > 0 && IsWhitespace(s[0]) then TrimStart(s[1..]) else s
  }

  /** Drops trailing white space: what is left is a prefix of the input. */
  function TrimEnd(s: string): (r: string)
    ensures |r| <= |s| && r == s[..|r|]
    decreases |s|
  {
    if |s| > 0 && IsWhitespace(s[|s| - 1]) then TrimEnd(s[..|s| - 1]) else s
  }

  /** `s.trim()`: never longer than the input. */
  function Trim(s: string): (r: string)
    ensures |r| <= |s|
  {
    TrimEnd(TrimStart(s))
  }

  /** TrimStart removes a white-space prefix and stops at the first other character. */
  lemma {:induction false} TrimStartShape(s: string)
    ensures var r := TrimStart(s);
      && AllWhitespace(s[..|s| - |r|])
      && (|r| > 0 ==> !IsWhitespace(r[0]))
    decreases |s|
  {
    if |s| > 0 && IsWhitespace(s[0]) {
      TrimStartShape(s[1..]);
      var n := |s| - |TrimStart(s)|;
      var dropped, rest := s[..n], s[1..][..n - 1];
      forall i | 0 <= i < n ensures IsWhitespace(dropped[i]) {
        if i > 0 { assert dropped[i] == rest[i - 1]; }
      }
    }
  }

  /** TrimEnd removes a white-space suffix and stops at the last other character. */
  lemma {:induction false} TrimEndShape(s: string)
    ensures var r := TrimEnd(s);
      && AllWhitespace(s[|r|..])
      && (|r| > 0 ==> !IsWhitespace(r[|r| - 1]))
    decreases |s|
  {
    if |s| > 0 && IsWhitespace(s[|s| - 1]) {
      var init := s[..|s| - 1];
      TrimEndShape(init);
      var r := TrimEnd(s);
      assert init[..|r|] == s[..|r|];
      forall i | 0 <= i < |s| - |r| ensures IsWhitespace(s[|r|..][i]) {
        if i < |s| - 1 - |r| { assert s[|r|..][i] == init[|r|..][i]; }
      }
    }
  }

  /** The trimmed string is no longer than the input and neither starts nor ends with white space. */
  lemma TrimShape(s: string)
    ensures |Trim(s)| <= |s|
    ensures |Trim(s)| > 0 ==> !IsWhitespace(Trim(s)[0]) && !IsWhitespace(Trim(s)[|Trim(s)| - 1])
  {
    var t := TrimStart(s);
    TrimStartShape(s);
    TrimEndShape(t);
    var u := TrimEnd(t);
    if |u| > 0 {
      assert u[0] == t[0];
    }
  }

  /** `s.trim() === ''` holds exactly for strings made of white space only. */
  lemma {:induction false} TrimEmptyIff(s: string)
    ensures Trim(s) == "" <==> AllWhitespace(s)
  {
    var t := TrimStart(s);
    var n := |s| - |t|;
    var u := TrimEnd(t);
    TrimStartShape(s);
    if u == "" {
      TrimEndShape(t);
      assert t[|u|..] == t;
      assert n == |s| && s[..n] == s;
    } else {
      assert u[0] == t[0] == s[n];
    }
  }

  /** `[^\s@]`: any character but white space and '@'. */
  predicate PatternChar(c: char) {
    !IsWhitespace(c) && c != '@'
  }

  predicate AllPatternChars(s: string) {
    forall i :: 0 <= i < |s| ==> PatternChar(s[i])
  }

  /**
   * `/^[^\s@]+@[^\s@]+\.[^\s@]+$/.test(s)`, read as the regular expression
   * defines it: some split of `s` into a non-empty run, '@', a non-empty run,
   * '.', and a non-empty run, where the runs hold neither white space nor '@'.
   */
  ghost predicate MatchesEmailPattern(s: string)
    ensures MatchesEmailPattern(s) ==> |s| >= 5 && '@' in s
  {
    exists at: nat, dot: nat ::
      && 0 < at && at + 1 < dot && dot + 1 < |s|
      && s[at] == '@' && s[dot] == '.'
      && AllPatternChars(s[..at]) && AllPatternChars(s[at + 1..dot]) && AllPatternChars(s[dot + 1..])
  }

  /** The index of the first '@', or |s| when there is none. */
  function AtIndex(s: string): (i: nat)
    ensures i <= |s|
    ensures i < |s| ==> s[i] == '@'
    ensures forall j :: 0 <= j < i ==> s[j] != '@'
  {
    if |s| == 0 then 0 else if s[0] == '@' then 0 else 1 + AtIndex(s[1..])
  }

  /**
   * A direct check of the same pattern: exactly one '@', not first; no white
   * space; and a '.' after the '@' with at least one character on each side.
   */
  predicate EmailValid(s: string)
    ensures EmailValid(s) ==> |s| >= 5 && '@' in s && ' ' !in s
  {
    var i := AtIndex(s);
    && 0 < i < |s|
    && AllPatternChars(s[..i]) && AllPatternChars(s[i + 1..])
    && exists d :: i + 2 <= d < |s| - 1 && s[d] == '.'
  }

  /** Every string the direct check accepts matches the regular expression. */
  lemma {:induction false} EmailValidMatches(s: string)
    requires EmailValid(s)
    ensures MatchesEmailPattern(s)
  {
    var i := AtIndex(s);
    var d :| i + 2 <= d < |s| - 1 && s[d] == '.';
    var tail := s[i + 1..];
    assert s[i + 1..d] == tail[..d - i - 1];
    assert s[d + 1..] == tail[d - i..];
    assert AllPatternChars(s[i + 1..d]);
    assert AllPatternChars(s[d + 1..]);
  }

  /** An '@' with none before it is the first one. */
  lemma AtIndexIs(s: string, at: nat)
    requires at < |s| && s[at] == '@'
    requires AllPatternChars(s[..at])
    ensures AtIndex(s) == at
  {
  }

  /** Two runs of pattern characters joined by a '.' form one run of pattern characters. */
  lemma PatternRunsJoin(t: string, k: nat)
    requires k < |t| && t[k] == '.'
    requires AllPatternChars(t[..k]) && AllPatternChars(t[k + 1..])
    ensures AllPatternChars(t)
  {
    forall j | 0 <= j < |t| ensures PatternChar(t[j]) {
      if j < k { assert t[..k][j] == t[j]; }
      else if j > k { assert t[k + 1..][j - k - 1] == t[j]; }
    }
  }

  /** Every string the regular expression matches passes the direct check. */
  lemma PatternMatchesValid(s: string)
    requires MatchesEmailPattern(s)
    ensures EmailValid(s)
  {
    var at: nat, dot: nat :|
      && 0 < at && at + 1 < dot && dot + 1 < |s|
      && s[at] == '@' && s[dot] == '.'
      && AllPatternChars(s[..at]) && AllPatternChars(s[at + 1..dot]) && AllPatternChars(s[dot + 1..]);
    AtIndexIs(s, at);
    var tail := s[at + 1..];
    var k := dot - at - 1;
    assert tail[..k] == s[at + 1..dot] && tail[k + 1..] == s[dot + 1..] && tail[k] == '.';
    PatternRunsJoin(tail, k);
    assert s[dot] == '.' && at + 2 <= dot < |s| - 1;
  }

  /** The direct check accepts exactly the strings the regular expression matches. */
  lemma EmailValidIffPattern(s: string)
    ensures EmailValid(s) <==> MatchesEmailPattern(s)
  {
    if EmailValid(s) { EmailValidMatches(s); }
    if MatchesEmailPattern(s) { PatternMatchesValid(s); }
  }

  /** "a@b.c" matches the e-mail pattern. */
  lemma EmailExampleAccepted()
    ensures MatchesEmailPattern("a@b.c")
  {
    var s := "a@b.c";
    assert AtIndex(s) == 1;
    assert s[3] == '.';
    assert EmailValid(s);
    EmailValidIffPattern(s);
  }

  /** "abc" (no '@'), "a@b" (no '.') and "a b@c.d" (a space) do not match. */
  lemma EmailExamplesRejected()
    ensures !MatchesEmailPattern("abc")
    ensures !MatchesEmailPattern("a@b")
    ensures !MatchesEmailPattern("a b@c.d")
  {
    assert AtIndex("abc") == 3;
    EmailValidIffPattern("abc");
    assert AtIndex("a@b") == 1;
    EmailValidIffPattern("a@b");
    var s := "a b@c.d";
    assert AtIndex(s) == 3;
    assert s[..3][1] == ' ' && !PatternChar(s[..3][1]);
    assert !EmailValid(s);
    EmailValidIffPattern(s);
  }

  /** `\d` or '+': the characters kept in the phone link. */
  predicate TelChar(c: char) {
    '0' <= c <= '9' || c == '+'
  }

  /** `phone.replace(/[^\d+]/g, '')`. */
  function KeepTelChars(s: string): (r: string)
    ensures |r| <= |s|
    ensures forall i :: 0 <= i < |r| ==> TelChar(r[i])
  {
    if |s| == 0 then ""
    else (if TelChar(s[0]) then [s[0]] else []) + KeepTelChars(s[1..])
  }

  /** Each digit and '+' is kept as often as it occurs, and nothing else is kept. */
  lemma {:induction false} KeepTelCharsCounts(s: string)
    ensures forall c :: multiset(KeepTelChars(s))[c] == if TelChar(c) then multiset(s)[c] else 0
  {
    if |s| > 0 {
      KeepTelCharsCounts(s[1..]);
      assert s == [s[0]] + s[1..];
    }
  }

  /** The sanitising keeps the kept characters in their original order. */
  lemma {:induction false} KeepTelCharsAppend(a: string, b: string)
    ensures KeepTelChars(a + b) == KeepTelChars(a) + KeepTelChars(b)
  {
    if a == [] {
      assert a + b == b;
    } else {
      assert (a + b)[0] == a[0] && (a + b)[1..] == a[1..] + b;
      KeepTelCharsAppend(a[1..], b);
    }
  }

  /** A phone string made only of digits and '+' is left as it is, and only such a string. */
  lemma {:induction false} KeepTelCharsFixedPoints(s: string)
    ensures KeepTelChars(s) == s <==> forall i :: 0 <= i < |s| ==> TelChar(s[i])
  {
    if |s| > 0 {
      KeepTelCharsFixedPoints(s[1..]);
      if TelChar(s[0]) {
        if forall i :: 0 <= i < |s| ==> TelChar(s[i]) {
          assert forall i :: 0 <= i < |s[1..]| ==> s[1..][i] == s[i + 1];
        } else {
          var i :| 0 <= i < |s| && !TelChar(s[i]);
          assert s[1..][i - 1] == s[i];
        }
      } else {
        assert |KeepTelChars(s)| <= |s[1..]| < |s|;
      }
    }
  }

  /** Sanitising twice is sanitising once. */
  lemma KeepTelCharsIdempotent(s: string)
    ensures KeepTelChars(KeepTelChars(s)) == KeepTelChars(s)
  {
    KeepTelCharsFixedPoints(KeepTelChars(s));
  }

  /** The `href` of the phone entry. */
  function TelLink(phone: string): (r: string)
    ensures |r| >= 4 && r[..4] == "tel:"
    ensures forall i :: 4 <= i < |r| ==> TelChar(r[i])
    ensures r[4..] == KeepTelChars(phone)
  {
    "tel:" + KeepTelChars(phone)
  }

  // ---------------------------------------------------------------- form state

  datatype Field = Name | Email | Subject | Message

  datatype FormData = FormData(name: string, email: string, subject: string, message: string) {
    function Get(f: Field): string {
      match f
      case Name => name
      case Email => email
      case Subject => subject
      case Message => message
    }

    /** `{ ...prev, [f]: v }`. */
    function Set(f: Field, v: string): (r: FormData)
      ensures r.Get(f) == v
      ensures forall g :: g != f ==> r.Get(g) == Get(g)
    {
      match f
      case Name => this.(name := v)
      case Email => this.(email := v)
      case Subject => this.(subject := v)
      case Message => this.(message := v)
    }
  }

  const EmptyForm := FormData("", "", "", "")

  /** One flag per validated field; subject has none. */
  datatype FieldErrors = FieldErrors(name: bool, email: bool, message: bool) {
    /** `errors[f]`; `errors.subject` is undefined, hence false. */
    function Get(f: Field): bool {
      match f
      case Name => name
      case Email => email
      case Subject => false
      case Message => message
    }

    function Clear(f: Field): (r: FieldErrors)
      ensures !r.Get(f)
      ensures forall g :: g != f ==> r.Get(g) == Get(g)
    {
      match f
      case Name => this.(name := false)
      case Email => this.(email := false)
      case Subject => this
      case Message => this.(message := false)
    }

    predicate Any() {
      name || email || message
    }
  }

  const NoErrors := FieldErrors(false, false, false)

  /**
   * The flags `validateForm` computes for a form: name and message are
   * flagged exactly when they are blank, and the e-mail exactly when it does
   * not match the pattern.
   */
  function Validate(d: FormData): (e: FieldErrors)
    ensures e.name <==> AllWhitespace(d.name)
    ensures e.email <==> !MatchesEmailPattern(d.email)
    ensures e.message <==> AllWhitespace(d.message)
  {
    TrimEmptyIff(d.name);
    TrimEmptyIff(d.message);
    EmailValidIffPattern(d.email);
    FieldErrors(Trim(d.name) == "", !EmailValid(d.email), Trim(d.message) == "")
  }

  /** The subject never influences validation. */
  lemma SubjectNeverValidated(d: FormData, subject: string)
    ensures Validate(d.(subject := subject)) == Validate(d)
  {
  }

  datatype Severity = Success | Error

  /** The messages the snackbar can hold; `Text` is the exact wording shown. */
  datatype Notice = Blank | Sent | SendFailed | InvalidInput {
    function Text(): (t: string)
      ensures t == "" <==> this == Blank
    {
      match this
      case Blank => ""
      case Sent => "Message sent successfully! I'll get back to you soon."
      case SendFailed => "Failed to send message. Please try again later."
      case InvalidInput => "Please fill in all required fields correctly."
    }
  }

  /** Each notice has its own wording, so the snackbar text tells the outcomes apart. */
  lemma NoticeTextsDistinct(a: Notice, b: Notice)
    ensures a.Text() == b.Text() <==> a == b
  {
    assert |Sent.Text()| == 53 && |SendFailed.Text()| == 47 && |InvalidInput.Text()| == 45;
  }

  datatype SnackbarState = SnackbarState(open: bool, message: Notice, severity: Severity)

  /** What the request produced: a parsed response with its `ok` field (truthiness), or a thrown error. */
  datatype FetchOutcome = Responded(ok: bool) | Threw

  class ContactForm {
    var formData: FormData
    var errors: FieldErrors
    var snackbar: SnackbarState

    constructor ()
      ensures formData == EmptyForm && errors == NoErrors
      ensures snackbar == SnackbarState(false, Blank, Success)
    {
      formData := EmptyForm;
      errors := NoErrors;
      snackbar := SnackbarState(false, Blank, Success);
    }

    /** Typing `value` into field `f`: only that field changes, and its error flag is cleared. */
    method HandleChange(f: Field, value: string)
      modifies this`formData, this`errors
      ensures formData == old(formData).Set(f, value)
      ensures errors == old(errors).Clear(f)
      ensures forall g :: g != f ==> formData.Get(g) == old(formData).Get(g) && errors.Get(g) == old(errors).Get(g)
    {
      formData := formData.Set(f, value);
      if errors.Get(f) {
        errors := errors.Clear(f);
      }
    }

    method ValidateForm() returns (valid: bool)
      modifies this`errors
      ensures errors == Validate(formData)
      ensures valid <==> !errors.name && !errors.email && !errors.message
    {
      errors := Validate(formData);
      valid := !errors.Any();
    }

    /**
     * Submitting: `request` is the payload sent, if any. An invalid form
     * sends nothing and keeps its fields; a valid one sends its fields once,
     * is cleared on an `ok` response and kept otherwise.
     */
    method HandleSubmit(outcome: FetchOutcome) returns (request: Option<FormData>)
      modifies this`formData, this`errors, this`snackbar
      ensures errors == Validate(old(formData))
      ensures request == if errors.Any() then None else Some(old(formData))
      ensures errors.Any() ==>
        formData == old(formData) && snackbar == SnackbarState(true, InvalidInput, Error)
      ensures !errors.Any() && outcome == Responded(true) ==>
        formData == EmptyForm && snackbar == SnackbarState(true, Sent, Success)
      ensures !errors.Any() && outcome != Responded(true) ==>
        formData == old(formData) && snackbar == SnackbarState(true, SendFailed, Error)
    {
      ghost var submitted := formData;
      var valid := ValidateForm();
      assert errors == Validate(submitted);
      if valid {
        request := Some(formData);
        match outcome
        case Responded(ok) =>
          if ok {
            snackbar := SnackbarState(true, Sent, Success);
            formData := EmptyForm;
          } else {
            snackbar := SnackbarState(true, SendFailed, Error);
          }
        case Threw =>
          snackbar := SnackbarState(true, SendFailed, Error);
      } else {
        request := None;
        snackbar := SnackbarState(true, InvalidInput, Error);
      }
    }

    method HandleCloseSnackbar()
      modifies this`snackbar
      ensures snackbar == old(snackbar).(open := false)
    {
      snackbar := snackbar.(open := false);
    }
  }
}
